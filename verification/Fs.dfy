/** Block allocation, the inode block map, and reading and writing files (kernel/fs.c, kernel/file.c). */
module Fs {
  import opened Common
  import opened FsBytes
  import opened FsModel
  import opened Sets
  import DiskTypes

  /** The bitmap blocks. */
  predicate IsBitmap(sb: Super, b: nat) { sb.bmapstart <= b < sb.datastart }

  /** No bitmap block is a file's. */
  lemma MetaIs(sb: Super, disk: ByteDisk, inodes: seq<Inode>, own: Owners)
    requires FsOk(sb, disk, inodes, own)
    ensures forall b :: 0 <= b < |own| && IsBitmap(sb, b) ==> !own[b].Data?
  {
    forall b | 0 <= b < |own| && IsBitmap(sb, b) ensures !own[b].Data? {
      assert BlockOk(sb, disk, inodes, own, b);
    }
  }

  lemma BitmapIs(sb: Super, b: nat)
    requires Layout(sb) && b < sb.size
    ensures sb.bmapstart <= BitBlock(sb, b) < sb.datastart <= sb.size && BitNo(b) < BPB
  {
  }

  /** A block number, unless it is 0. */
  function One(a: nat): (s: set<nat>) { if a == 0 then {} else {a} }

  /** The indirect block of an inode, 0 when it has none. */
  function Ind(ino: Inode): (b: nat) { if |ino.addrs| == NDIRECT + 1 then ino.addrs[NDIRECT] else 0 }

  /** The bitmap block that a new block number needs logged. */
  function BitOf(sb: Super, was: nat, now: nat): (s: set<nat>) {
    if was == 0 && now != 0 then {BitBlock(sb, now)} else {}
  }

  /** What a block number that may be new needs logged: the block, and its bitmap block if it is new. */
  function Charge(sb: Super, was: nat, now: nat): (s: set<nat>) { BitOf(sb, was, now) + One(now) }

  /** A number that stays once it is there is charged for once. */
  lemma ChargeOnce(sb: Super, a: nat, b: nat, c: nat)
    requires (a != 0 ==> b == a) && (b != 0 ==> c == b)
    ensures Charge(sb, a, b) + Charge(sb, b, c) <= Charge(sb, a, c)
  {
  }

  /** No block has been taken without being given to a file. */
  ghost predicate NoFresh(own: Owners) {
    forall b {:trigger own[b]} :: 0 <= b < |own| ==> own[b] != Fresh
  }

  /** Block `b` is named by an inode or by an inode's indirect block. */
  ghost predicate Named(disk: ByteDisk, inodes: seq<Inode>, b: nat) {
    || (exists i, bn: nat :: 0 <= i < |inodes| && bn < MAXFILE && BlockOf(disk, inodes[i], bn) == b)
    || (exists i :: 0 <= i < |inodes| && Ind(inodes[i]) == b)
  }

  /** The free map marks the blocks below the data and the blocks that inodes name, and no others. */
  lemma MarkedIs(sb: Super, disk: ByteDisk, inodes: seq<Inode>, own: Owners, b: nat)
    requires FsOk(sb, disk, inodes, own) && NoFresh(own) && b < sb.size
    ensures Marked(sb, disk, b) <==> b < sb.datastart || Named(disk, inodes, b)
  {
    assert BlockOk(sb, disk, inodes, own, b);
    assert Marked(sb, disk, b) <==> own[b] != Free;
    if own[b].Data? {
      assert BlockOf(disk, inodes[own[b].i], own[b].bn) == b;
    } else if own[b].Indirect? {
      assert Ind(inodes[own[b].i]) == b;
    } else if own[b].Free? {
      forall i, bn: nat | 0 <= i < |inodes| && bn < MAXFILE ensures BlockOf(disk, inodes[i], bn) != b {
        assert InodeOk(sb, disk, own, inodes[i], i, 0);
      }
      forall i | 0 <= i < |inodes| ensures Ind(inodes[i]) != b {
        assert InodeOk(sb, disk, own, inodes[i], i, 0);
      }
    }
  }

  /** No block is named twice: not by two files, not at two places of one, not as data and as an indirect block. */
  lemma NamedOnce(sb: Super, disk: ByteDisk, inodes: seq<Inode>, own: Owners, i: nat, bn: nat, j: nat, c: nat)
    requires FsOk(sb, disk, inodes, own) && i < |inodes| && j < |inodes| && bn < MAXFILE && c < MAXFILE
    ensures BlockOf(disk, inodes[i], bn) == BlockOf(disk, inodes[j], c) != 0 ==> i == j && bn == c
    ensures Ind(inodes[i]) == Ind(inodes[j]) != 0 ==> i == j
    ensures BlockOf(disk, inodes[i], bn) != 0 ==> BlockOf(disk, inodes[i], bn) != Ind(inodes[j])
  {
    assert InodeOk(sb, disk, own, inodes[i], i, 0) && InodeOk(sb, disk, own, inodes[j], j, 0);
  }

  /** An indirect block, once there, stays. */
  predicate KeepsIndirect(ino: Inode, ino': Inode) {
    |ino.addrs| == |ino'.addrs| == NDIRECT + 1 && (Ind(ino) != 0 ==> Ind(ino') == Ind(ino))
  }

  /** Only the files' metadata moved: every block of file data is as it was and where it was. */
  ghost predicate KeepsData(sb: Super, disk: ByteDisk, own: Owners, disk': ByteDisk, own': Owners) {
    && |disk'| == |disk| && |own'| == |own| && |own| == |disk|
    && (forall b {:trigger own[b]} :: 0 <= b < |own| && own[b].Data? ==> own'[b] == own[b] && disk'[b] == disk[b])
    && (forall b {:trigger disk[b]} :: 0 <= b < |disk| && b < sb.bmapstart ==> disk'[b] == disk[b])
  }

  /** The first `k` words of `ino` have been stored at word `s` of a block that was `old0`. */
  ghost predicate Partly(old0: ByteBlock, b: ByteBlock, s: nat, k: nat, ino: Inode) {
    && |old0| == BSIZE && |b| == BSIZE && s + k <= NWORDS
    && (forall w: nat {:trigger Word(b, w)} :: w < NWORDS ==>
        Word(b, w) == if s <= w < s + k then InodeWord(ino, w - s) else Word(old0, w))
  }

  lemma PartlyMore(old0: ByteBlock, b: ByteBlock, s: nat, k: nat, ino: Inode)
    requires Partly(old0, b, s, k, ino) && s + k < NWORDS && InodeWord(ino, k) < U32
    ensures Partly(old0, SetWord(b, s + k, InodeWord(ino, k)), s, k + 1, ino)
  {
    var b' := SetWord(b, s + k, InodeWord(ino, k));
    forall w: nat | w < NWORDS
      ensures Word(b', w) == if s <= w < s + (k + 1) then InodeWord(ino, w - s) else Word(old0, w)
    {
      WordSet(b, s + k, InodeWord(ino, k), w);
      assert Word(b, w) == if s <= w < s + k then InodeWord(ino, w - s) else Word(old0, w);
    }
  }

  /** Writing one inode's words leaves the other inodes of the block alone. */
  lemma StoredKept(sb: Super, disk: ByteDisk, disk': ByteDisk, i: nat)
    requires Layout(sb) && DiskOk(sb, disk) && DiskOk(sb, disk') && i < sb.ninodes
    requires forall b :: 0 <= b < |disk| && b != InodeBlock(sb, i) ==> disk'[b] == disk[b]
    requires InodeBlock(sb, i) < |disk|
    requires forall w: nat :: w < NWORDS && !(Slot(i) <= w < Slot(i) + IWORDS) ==>
      Word(disk'[InodeBlock(sb, i)], w) == Word(disk[InodeBlock(sb, i)], w)
    ensures forall j, ino :: 0 <= j < sb.ninodes && j != i && Stored(sb, disk, ino, j) ==> Stored(sb, disk', ino, j)
  {
  }

  // ------------------------------------------------------------ file contents

  /** How much of an `n`-byte read at `off` lies within the file: as much as does, unless the range wraps around. */
  function Clipped(size: nat, off: nat, n: nat): (k: nat)
    ensures k <= n && (off <= size ==> off + k <= size)
    ensures off <= size && off + n < U32 ==> k == n || off + k == size
    ensures off > size || off + n >= U32 ==> k == 0
  {
    if off > size || off + n >= U32 then 0 else if off + n > size then size - off else n
  }

  ghost predicate FileReads(disk: ByteDisk, ino: Inode, off: nat, data: seq<Byte>) {
    forall k {:trigger data[k]} :: 0 <= k < |data| ==> data[k] == FileByte(disk, ino, off + k)
  }

  lemma ReadChunk(disk: ByteDisk, ino: Inode, o: nat, addr: nat, chunk: seq<Byte>)
    requires addr == BlockOf(disk, ino, BlockNo(o)) && 0 < addr < |disk| && |disk[addr]| == BSIZE
             && Offset(o) + |chunk| <= BSIZE
    requires chunk == disk[addr][Offset(o)..Offset(o) + |chunk|]
    ensures FileReads(disk, ino, o, chunk)
  {
    forall k | 0 <= k < |chunk| ensures chunk[k] == FileByte(disk, ino, o + k) {
      assert BlockNo(o + k) == BlockNo(o) && Offset(o + k) == Offset(o) + k;
    }
  }

  lemma ReadMore(disk: ByteDisk, ino: Inode, off: nat, data: seq<Byte>, o: nat, chunk: seq<Byte>)
    requires FileReads(disk, ino, off, data) && FileReads(disk, ino, o, chunk) && o == off + |data|
    ensures FileReads(disk, ino, off, data + chunk)
  {
    forall k | 0 <= k < |data + chunk| ensures (data + chunk)[k] == FileByte(disk, ino, off + k) {
      if k >= |data| { assert chunk[k - |data|] == FileByte(disk, ino, o + (k - |data|)); }
    }
  }

  /** Every file but `i` is the same. */
  ghost predicate OthersSame(disk: ByteDisk, inodes: seq<Inode>, disk': ByteDisk, inodes': seq<Inode>, i: nat) {
    && |inodes'| == |inodes|
    && (forall j {:trigger inodes'[j]} {:trigger inodes[j]} :: 0 <= j < |inodes| && j != i ==>
        inodes'[j] == inodes[j] && SameFile(disk, disk', inodes[j]))
  }

  lemma OthersSameTrans(disk: ByteDisk, inodes: seq<Inode>, disk1: ByteDisk, inodes1: seq<Inode>, disk2: ByteDisk,
                        inodes2: seq<Inode>, i: nat)
    requires OthersSame(disk, inodes, disk1, inodes1, i) && OthersSame(disk1, inodes1, disk2, inodes2, i)
    ensures OthersSame(disk, inodes, disk2, inodes2, i)
  {
  }

  /** No address that a file had has changed. */
  ghost predicate KeepsBlocks(disk: ByteDisk, ino: Inode, disk': ByteDisk, ino': Inode) {
    forall c: nat {:trigger BlockOf(disk', ino', c)} :: BlockOf(disk, ino, c) != 0 ==>
          BlockOf(disk', ino', c) == BlockOf(disk, ino, c)
  }

  ghost predicate SameBytes(disk: ByteDisk, ino: Inode, disk': ByteDisk, ino': Inode) {
    forall a: nat {:trigger FileByte(disk', ino', a)} :: FileByte(disk', ino', a) == FileByte(disk, ino, a)
  }

  /** The file has `chunk` at `o` and is otherwise as it was. */
  ghost predicate Spliced(disk: ByteDisk, ino: Inode, disk': ByteDisk, ino': Inode, o: nat, chunk: seq<Byte>) {
    forall a: nat {:trigger FileByte(disk', ino', a)} ::
      FileByte(disk', ino', a) == if o <= a < o + |chunk| then chunk[a - o] else FileByte(disk, ino, a)
  }

  lemma MapKeepsBytes(sb: Super, disk: ByteDisk, inodes: seq<Inode>, own: Owners, disk': ByteDisk, inodes': seq<Inode>,
                      own': Owners, i: nat, bn: nat, j: nat)
    requires FsOk(sb, disk, inodes, own) && FsOk(sb, disk', inodes', own') && |disk'| == |disk| && i < |inodes|
             && j < |inodes|
    requires SameBlocksBut(disk, inodes, disk', inodes', i, bn) && KeepsData(sb, disk, own, disk', own')
    requires BlockOf(disk, inodes[i], bn) != 0 ==> BlockOf(disk', inodes'[i], bn) == BlockOf(disk, inodes[i], bn)
    requires var b := BlockOf(disk', inodes'[i], bn);
             b != 0 && BlockOf(disk, inodes[i], bn) == 0 ==> b < |disk'| && disk'[b] == ZeroBlock()
    ensures SameBytes(disk, inodes[j], disk', inodes'[j])
  {
  }

  /** Copying into one data block splices one file. */
  lemma ChunkWritten(sb: Super, disk: ByteDisk, inodes: seq<Inode>, own: Owners, i: nat, o: nat, chunk: seq<Byte>,
                     data: ByteBlock)
    requires FsOk(sb, disk, inodes, own) && i < |inodes| && Offset(o) + |chunk| <= BSIZE
    requires var addr := BlockOf(disk, inodes[i], BlockNo(o));
             && 0 < addr < |disk| && |disk[addr]| == BSIZE
             && data == disk[addr][..Offset(o)] + chunk + disk[addr][Offset(o) + |chunk|..]
    ensures var disk' := disk[BlockOf(disk, inodes[i], BlockNo(o)) := data];
            && FsOk(sb, disk', inodes, own) && Spliced(disk, inodes[i], disk', inodes[i], o, chunk)
            && (forall j :: 0 <= j < |inodes| && j != i ==> SameFile(disk, disk', inodes[j]))
            && (forall j, c: nat :: 0 <= j < |inodes| ==> BlockOf(disk', inodes[j], c) == BlockOf(disk, inodes[j], c))
            && (forall b :: 0 <= b < |disk| && b < sb.bmapstart ==> disk'[b] == disk[b])
  {
    var bn := BlockNo(o);
    var addr := BlockOf(disk, inodes[i], bn);
    var disk' := disk[addr := data];
    DataIs(sb, disk, inodes, own, i, bn);
    KeepBits(sb, disk, own, addr, data);
    KeepOk(sb, disk, inodes, own, disk', own, 0, 0);
    forall j, a: nat | 0 <= j < |inodes|
      ensures FileByte(disk', inodes[j], a) == if j == i && o <= a < o + |chunk| then chunk[a - o]
              else FileByte(disk, inodes[j], a)
    {
      var c := BlockNo(a);
      if BlockOf(disk, inodes[j], c) != 0 { DataIs(sb, disk, inodes, own, j, c); }
      InChunk(o, |chunk|, a);
    }
  }

  function Max(a: nat, b: nat): (r: nat) { if a > b then a else b }

  /** How many blocks `n` bytes at `off` touch. */
  function Span(off: nat, n: nat): (k: nat) {
    if n == 0 then 0 else BlockNo(off + n - 1) - BlockNo(off) + 1
  }

  lemma SpanMore(off: nat, tot: nat, m: nat)
    requires m > 0 && (tot == 0 || Offset(off + tot) == 0) && Offset(off + tot) + m <= BSIZE
    ensures Span(off, tot + m) == Span(off, tot) + 1
  {
  }

  /** How far writei's loop has got: `done` is in place, and no block up to its end is missing. */
  ghost predicate Progress(sb: Super, disk: ByteDisk, inodes: seq<Inode>, disk': ByteDisk, inodes': seq<Inode>, i: nat,
                           off: nat, done: seq<Byte>)
  {
    && i < |inodes| && |inodes'| == |inodes| && |disk'| == |disk|
    && OthersSame(disk, inodes, disk', inodes', i)
    && inodes'[i] == inodes[i].(addrs := inodes'[i].addrs)
    && (forall b :: 0 <= b < |disk| && b < sb.bmapstart ==> disk'[b] == disk[b])
    && KeepsBlocks(disk, inodes[i], disk', inodes'[i])
    && Spliced(disk, inodes[i], disk', inodes'[i], off, done)
    && Covers(disk', inodes'[i], Max(inodes[i].size, off + |done|))
  }

  /** No block is missing below `hi`. */
  ghost predicate Covers(disk: ByteDisk, ino: Inode, hi: nat) {
    forall bn: nat {:trigger BlockOf(disk, ino, bn)} :: Start(bn) < hi ==> BlockOf(disk, ino, bn) != 0
  }

  lemma ProgressMore(sb: Super, disk: ByteDisk, inodes: seq<Inode>, disk1: ByteDisk, inodes1: seq<Inode>,
                     disk2: ByteDisk, inodes2: seq<Inode>,
                     i: nat, off: nat, done: seq<Byte>, o: nat, chunk: seq<Byte>, done': seq<Byte>)
    requires Progress(sb, disk, inodes, disk1, inodes1, i, off, done) && o == off + |done| && done' == done + chunk
    requires |inodes2| == |inodes1| && |disk2| == |disk1|
    requires OthersSame(disk1, inodes1, disk2, inodes2, i)
    requires inodes2[i] == inodes1[i].(addrs := inodes2[i].addrs)
    requires forall b :: 0 <= b < |disk1| && b < sb.bmapstart ==> disk2[b] == disk1[b]
    requires KeepsBlocks(disk1, inodes1[i], disk2, inodes2[i])
             && Spliced(disk1, inodes1[i], disk2, inodes2[i], o, chunk)
    requires chunk != [] ==> BlockOf(disk2, inodes2[i], BlockNo(o)) != 0 && Offset(o) + |chunk| <= BSIZE
    ensures Progress(sb, disk, inodes, disk2, inodes2, i, off, done')
  {
    forall a: nat
      ensures FileByte(disk2, inodes2[i], a) == if off <= a < off + |done'| then done'[a - off]
              else FileByte(disk, inodes[i], a)
    {
      assert FileByte(disk1, inodes1[i], a) == if off <= a < off + |done| then done[a - off]
        else FileByte(disk, inodes[i], a);
    }
    forall bn: nat | Start(bn) < Max(inodes[i].size, off + |done'|) ensures BlockOf(disk2, inodes2[i], bn) != 0 {
      assert Start(bn) < Max(inodes[i].size, off + |done|) ==> BlockOf(disk1, inodes1[i], bn) != 0;
      assert chunk != [] && o <= Start(bn) < o + |chunk| ==> bn == BlockNo(o);
    }
    OthersSameTrans(disk, inodes, disk1, inodes1, disk2, inodes2, i);
  }

  /** How many of them can be new: a first block that is written from its middle is there already. */
  function News(off: nat, n: nat): (k: int) {
    Span(off, n) - if n > 0 && Offset(off) != 0 then 1 else 0
  }

  lemma SpanChunk(off: nat, n: nat)
    requires n <= CHUNK
    ensures Span(off, n) <= 4 && News(off, n) <= 3
  {
  }

  lemma SpanGrows(off: nat, n: nat, n': nat)
    requires n <= n'
    ensures Span(off, n) <= Span(off, n') && News(off, n) <= News(off, n')
  {
  }

  /**
   * What writing `n` bytes at `off` may log: `touched`, one for each block it spans, `maps`, a bitmap block for
   * each of them that can be new, and the indirect block with its bitmap block.
   */
  ghost predicate Spent(sb: Super, logged0: set<nat>, logged: set<nat>, ind0: nat, ind: nat,
                        maps: set<nat>, touched: set<nat>, off: nat, n: nat) {
    && logged <= logged0 + Charge(sb, ind0, ind) + maps + touched && (ind0 != 0 ==> ind == ind0)
    && |touched| <= Span(off, n) && |maps| <= News(off, n)
  }

  lemma SpentMore(sb: Super, logged0: set<nat>, logged1: set<nat>, logged2: set<nat>, ind0: nat, ind1: nat, ind2: nat,
                  maps: set<nat>, touched: set<nat>, off: nat, tot: nat, next: nat, was: nat, addr: nat)
    requires Spent(sb, logged0, logged1, ind0, ind1, maps, touched, off, tot)
    requires logged2 <= logged1 + Charge(sb, ind1, ind2) + Charge(sb, was, addr) && (ind1 != 0 ==> ind2 == ind1)
    requires tot < next && (tot == 0 || Offset(off + tot) == 0) && Offset(off + tot) + (next - tot) <= BSIZE
    requires tot == 0 && Offset(off) != 0 ==> was != 0
    ensures Spent(sb, logged0, logged2, ind0, ind2, maps + BitOf(sb, was, addr), touched + One(addr), off, next)
  {
    LoggedMore(sb, logged0, logged1, logged2, ind0, ind1, ind2, maps, touched, was, addr);
    SpanMore(off, tot, next - tot);
  }

  lemma LoggedMore(sb: Super, logged0: set<nat>, logged1: set<nat>, logged2: set<nat>, ind0: nat, ind1: nat, ind2: nat,
                   maps: set<nat>, touched: set<nat>, was: nat, addr: nat)
    requires logged1 <= logged0 + Charge(sb, ind0, ind1) + maps + touched && (ind0 != 0 ==> ind1 == ind0)
    requires logged2 <= logged1 + Charge(sb, ind1, ind2) + Charge(sb, was, addr) && (ind1 != 0 ==> ind2 == ind1)
    ensures logged2 <= logged0 + Charge(sb, ind0, ind2) + (maps + BitOf(sb, was, addr)) + (touched + One(addr))
  {
    ChargeOnce(sb, ind0, ind1, ind2);
  }

  lemma SpentUpTo(sb: Super, logged0: set<nat>, logged: set<nat>, ind0: nat, ind: nat,
                  maps: set<nat>, touched: set<nat>, off: nat, n: nat, n': nat)
    requires Spent(sb, logged0, logged, ind0, ind, maps, touched, off, n) && n <= n'
    ensures Spent(sb, logged0, logged, ind0, ind, maps, touched, off, n')
  {
    SpanGrows(off, n, n');
  }

  /** No block is missing at an offset in the middle of a block, up to the file's size. */
  lemma Inside(disk: ByteDisk, ino: Inode, off: nat)
    requires NoHoles(disk, ino) && off <= ino.size && Offset(off) != 0
    ensures BlockOf(disk, ino, BlockNo(off)) != 0
  {
    assert Start(BlockNo(off)) < off;
  }

  /** After writei's loop, setting the size and storing the inode restores the invariant between operations. */
  lemma WriteDone(sb: Super, disk: ByteDisk, inodes: seq<Inode>, disk1: ByteDisk, inodes1: seq<Inode>, own1: Owners,
                  disk2: ByteDisk, inodes2: seq<Inode>,
                  i: nat, off: nat, done: seq<Byte>)
    requires FsOk(sb, disk1, inodes1, own1) && FsOk(sb, disk2, inodes2, own1) && DiskOk(sb, disk)
             && |inodes| == |inodes1|
    requires Progress(sb, disk, inodes, disk1, inodes1, i, off, done)
    requires inodes2 == inodes1[i := inodes1[i].(size := Max(inodes[i].size, off + |done|))]
    requires forall j :: 0 <= j < |inodes| ==> NoHoles(disk, inodes[j]) && Stored(sb, disk, inodes[j], j)
    requires forall b :: 0 <= b < |disk1| && b != InodeBlock(sb, i) ==> disk2[b] == disk1[b]
    requires Stored(sb, disk2, inodes2[i], i)
    requires forall j, ino :: 0 <= j < |inodes| && j != i && Stored(sb, disk1, ino, j) ==> Stored(sb, disk2, ino, j)
    ensures forall j :: 0 <= j < |inodes| ==> NoHoles(disk2, inodes2[j]) && Stored(sb, disk2, inodes2[j], j)
    ensures Spliced(disk, inodes[i], disk2, inodes2[i], off, done)
    ensures OthersSame(disk, inodes, disk2, inodes2, i)
  {
    forall j | 0 <= j < |inodes| ensures NoHoles(disk2, inodes2[j]) && Stored(sb, disk2, inodes2[j], j) {
      StoreKeeps(sb, disk1, inodes1, own1, disk2, inodes2[j], i, j);
      if j != i {
        BlocksInPlace(sb, 0, j);
        assert disk1[InodeBlock(sb, j)] == disk[InodeBlock(sb, j)];
        assert inodes1[j] == inodes[j] && Stored(sb, disk1, inodes[j], j);
      }
    }
    StoreKeeps(sb, disk1, inodes1, own1, disk2, inodes2[i], i, i);
    forall j | 0 <= j < |inodes| && j != i ensures inodes2[j] == inodes[j] && SameFile(disk, disk2, inodes[j]) {
      StoreKeeps(sb, disk1, inodes1, own1, disk2, inodes2[j], i, j);
      assert inodes1[j] == inodes[j];
    }
  }

  /** So it does after itrunc has freed the blocks. */
  lemma TruncDone(sb: Super, disk: ByteDisk, inodes: seq<Inode>, own: Owners, disk1: ByteDisk, inodes1: seq<Inode>,
                  own1: Owners,
                  disk2: ByteDisk, inodes2: seq<Inode>, i: nat)
    requires FsOk(sb, disk, inodes, own) && FsOk(sb, disk1, inodes1, own1) && DiskOk(sb, disk2)
             && i < |inodes| == |inodes1| && |disk1| == |disk|
    requires inodes1 == inodes[i := inodes[i].(addrs := inodes1[i].addrs)]
             && inodes2 == inodes1[i := inodes1[i].(size := 0)]
    requires forall j :: 0 <= j < |inodes| ==> NoHoles(disk, inodes[j]) && Stored(sb, disk, inodes[j], j)
    requires forall b :: 0 <= b < |disk| && !IsBitmap(sb, b) ==> disk1[b] == disk[b]
    requires forall b :: 0 <= b < |disk1| && b != InodeBlock(sb, i) ==> disk2[b] == disk1[b]
    requires Stored(sb, disk2, inodes2[i], i)
    requires forall j, ino :: 0 <= j < |inodes| && j != i && Stored(sb, disk1, ino, j) ==> Stored(sb, disk2, ino, j)
    ensures forall j :: 0 <= j < |inodes| ==> NoHoles(disk2, inodes2[j]) && Stored(sb, disk2, inodes2[j], j)
    ensures forall j, a: nat :: 0 <= j < |inodes| && j != i ==>
              FileByte(disk2, inodes2[j], a) == FileByte(disk, inodes[j], a)
  {
    forall j | 0 <= j < |inodes| && j != i
      ensures NoHoles(disk2, inodes2[j]) && Stored(sb, disk2, inodes2[j], j) && SameFile(disk, disk2, inodes[j])
    {
      OffBitmap(sb, disk, inodes, own, disk1, j);
      OneInodeBlock(sb, disk1, inodes1, own1, disk2, i, j);
    }
  }

  /** Storing inode `i` leaves the blocks and bytes of every file alone. */
  lemma StoreKeeps(sb: Super, disk: ByteDisk, inodes: seq<Inode>, own: Owners, disk': ByteDisk, ino': Inode, i: nat,
                   j: nat)
    requires FsOk(sb, disk, inodes, own) && DiskOk(sb, disk') && i < |inodes| && j < |inodes|
             && ino'.addrs == inodes[j].addrs
    requires forall b :: 0 <= b < |disk| && b != InodeBlock(sb, i) ==> disk'[b] == disk[b]
    ensures forall c: nat {:trigger BlockOf(disk', ino', c)} :: BlockOf(disk', ino', c) == BlockOf(disk, inodes[j], c)
    ensures SameBytes(disk, inodes[j], disk', ino')
  {
    BlocksInPlace(sb, 0, i);
    IndirectIs(sb, disk, inodes, own, 0, 0, j);
    forall c: nat ensures BlockOf(disk', ino', c) == BlockOf(disk, inodes[j], c) {}
    forall a: nat ensures FileByte(disk', ino', a) == FileByte(disk, inodes[j], a) {
      if BlockOf(disk, inodes[j], BlockNo(a)) != 0 { DataIs(sb, disk, inodes, own, j, BlockNo(a)); }
    }
  }

  /** The most that filewrite puts into one transaction. */
  const CHUNK: nat := 3072          // (MAXOPBLOCKS - 1 - 1 - 2) / 2 * BSIZE

  lemma SplicedMore(disk: ByteDisk, ino: Inode, disk1: ByteDisk, ino1: Inode, disk2: ByteDisk, ino2: Inode, off: nat,
                    done: seq<Byte>, chunk: seq<Byte>, done': seq<Byte>)
    requires Spliced(disk, ino, disk1, ino1, off, done) && Spliced(disk1, ino1, disk2, ino2, off + |done|, chunk)
             && done' == done + chunk
    ensures Spliced(disk, ino, disk2, ino2, off, done')
  {
  }

  /** File `i` has had `done` written into it at `off`, its size is what that makes it, and no other file moved. */
  ghost predicate Written(disk: ByteDisk, inodes: seq<Inode>, disk': ByteDisk, inodes': seq<Inode>, i: nat, off: nat,
                          done: seq<Byte>)
  {
    && i < |inodes| && |inodes'| == |inodes| && |disk'| == |disk|
    && Spliced(disk, inodes[i], disk', inodes'[i], off, done)
    && inodes'[i].size == (if done == [] then inodes[i].size else Max(inodes[i].size, off + |done|))
    && OthersSame(disk, inodes, disk', inodes', i)
  }

  /** How much a write that returned `r` has written. */
  function Got(r: int): (n: nat) { if r < 0 then 0 else r }

  lemma WrittenMore(disk: ByteDisk, inodes: seq<Inode>, disk1: ByteDisk, inodes1: seq<Inode>, disk2: ByteDisk,
                    inodes2: seq<Inode>, i: nat, off: nat, done: seq<Byte>, chunk: seq<Byte>, done': seq<Byte>)
    requires Written(disk, inodes, disk1, inodes1, i, off, done)
             && Written(disk1, inodes1, disk2, inodes2, i, off + |done|, chunk)
    requires done' == done + chunk
    ensures Written(disk, inodes, disk2, inodes2, i, off, done')
  {
    OthersSameTrans(disk, inodes, disk1, inodes1, disk2, inodes2, i);
    SplicedMore(disk, inodes[i], disk1, inodes1[i], disk2, inodes2[i], off, done, chunk, done');
  }

  lemma NothingWritten(disk: ByteDisk, inodes: seq<Inode>, i: nat, off: nat)
    requires i < |inodes|
    ensures Written(disk, inodes, disk, inodes, i, off, [])
  {
  }

  /**
   * A write of at most CHUNK bytes logs up to four data blocks, three bitmap blocks for those that are
   * new, and an indirect block with its bitmap block: nine. The inode block makes ten.
   */
  lemma LogCount(sb: Super, before: set<nat>, ind0: nat, ind: nat, maps: set<nat>, touched: set<nat>, off: nat, n: nat)
    requires Spent(sb, {}, before, ind0, ind, maps, touched, off, n) && n <= CHUNK
    ensures |before| < DiskTypes.MAXOPBLOCKS
  {
    SpanChunk(off, n);
    SubsetSize(before, Charge(sb, ind0, ind) + maps + touched);
  }

  // --------------------------------------------------------------- truncation

  /** Blocks of inode `i` below `k` have been freed. */
  ghost predicate OwnTrimmed(own: Owners, own': Owners, i: nat, k: nat) {
    && |own'| == |own|
    && (forall b {:trigger own'[b]} :: 0 <= b < |own| ==>
          own'[b] == if own[b].Data? && own[b].i == i && own[b].bn < k then Free else own[b])
  }

  /**
   * The addresses of inode `i` below `k` are gone; the other blocks are where they were, and only bitmap blocks
   * changed.
   */
  ghost predicate MapTrimmed(sb: Super, disk: ByteDisk, inodes: seq<Inode>, disk': ByteDisk, inodes': seq<Inode>,
                             i: nat, k: nat)
  {
    && |disk'| == |disk| && |inodes'| == |inodes| && i < |inodes|
    && (forall j {:trigger inodes'[j]} :: 0 <= j < |inodes| && j != i ==> inodes'[j] == inodes[j])
    && inodes'[i] == inodes[i].(addrs := inodes'[i].addrs)
    && (forall j, c: nat :: 0 <= j < |inodes| ==>
          BlockOf(disk', inodes'[j], c) == if j == i && c < k then 0 else BlockOf(disk, inodes[j], c))
    && (forall b :: 0 <= b < |disk| && !IsBitmap(sb, b) ==> disk'[b] == disk[b])
  }

  /** Blocks of inode `i` from NDIRECT up to `k` have been freed. */
  ghost predicate EntriesTrimmed(own: Owners, own': Owners, i: nat, k: nat) {
    && |own'| == |own|
    && (forall b {:trigger own'[b]} :: 0 <= b < |own| ==>
          own'[b] == if own[b].Data? && own[b].i == i && NDIRECT <= own[b].bn < k then Free else own[b])
  }

  /** Block `k` of inode `i` is owned by nobody else, and nothing else is owned as that block. */
  lemma OnlyOwner(sb: Super, disk: ByteDisk, inodes: seq<Inode>, own: Owners, i: nat, k: nat)
    requires FsOk(sb, disk, inodes, own) && i < |inodes| && k < MAXFILE
    ensures var b := BlockOf(disk, inodes[i], k); b < |own| && (b != 0 ==> own[b] == Data(i, k))
    ensures forall c :: 0 <= c < |own| && own[c] == Data(i, k) ==> c == BlockOf(disk, inodes[i], k) && c != 0
  {
    assert InodeOk(sb, disk, own, inodes[i], i, 0);
    var b := BlockOf(disk, inodes[i], k);
    forall c | 0 <= c < |own| && own[c] == Data(i, k) ensures c == b && c != 0 {
      assert BlockOk(sb, disk, inodes, own, c);
    }
  }

  lemma TrimEntry(own: Owners, own1: Owners, own2: Owners, i: nat, k: nat, b: nat)
    requires NDIRECT <= k && b < |own| && (b != 0 ==> own[b] == Data(i, k)) && EntriesTrimmed(own, own1, i, k)
    requires forall c :: 0 <= c < |own| && own[c] == Data(i, k) ==> c == b && c != 0
    requires own2 == if b == 0 then own1 else own1[b := Free]
    ensures EntriesTrimmed(own, own2, i, k + 1)
  {
  }

  /** Block `bn` of the file is `w`, for a proof that asks. */
  ghost predicate EntryAt(disk: ByteDisk, ino: Inode, bn: nat, w: nat) {
    forall k: int {:trigger Asked(k)} :: Asked(k) ==> BlockOf(disk, ino, bn) == w
  }

  /** Entry `j` of the indirect block, read before the truncation began, still is that file block and owned as such. */
  lemma EntryIs(sb: Super, disk: ByteDisk, inodes: seq<Inode>, own: Owners, disk': ByteDisk, i: nat, j: nat, w: nat)
    requires FsOk(sb, disk, inodes, own) && i < |inodes| && j < NINDIRECT && |disk'| == |disk|
             && |inodes[i].addrs| == NDIRECT + 1
    requires var b := inodes[i].addrs[NDIRECT]; 0 < b < |disk| && disk'[b] == disk[b]
    requires EntryAt(disk, inodes[i], NDIRECT + j, w)
    ensures EntryAt(disk', inodes[i], NDIRECT + j, w)
    ensures w < |own| && (w != 0 ==> own[w] == Data(i, NDIRECT + j))
    ensures forall c :: 0 <= c < |own| && own[c] == Data(i, NDIRECT + j) ==> c == w && c != 0
  {
    assert Asked(0);
    SameBlocks(disk, disk', inodes[i], NDIRECT + j);
    OnlyOwner(sb, disk, inodes, own, i, NDIRECT + j);
  }

  lemma LetOff(sb: Super, disk: ByteDisk, inodes: seq<Inode>, own: Owners, i: nat)
    requires FsOk(sb, disk, inodes, own)
    ensures TruncOk(sb, disk, inodes, own, i, NDIRECT)
  {
  }

  lemma RaiseLo(sb: Super, disk: ByteDisk, inodes: seq<Inode>, own: Owners, i: nat, lo: nat)
    requires TruncOk(sb, disk, inodes, own, i, lo)
    ensures TruncOk(sb, disk, inodes, own, i, lo + 1)
  {
  }

  /** The indirect block of inode `i` and the blocks named in it have been freed. */
  ghost predicate IndirectTrimmed(own: Owners, own': Owners, i: nat) {
    && |own'| == |own|
    && (forall b {:trigger own'[b]} :: 0 <= b < |own| ==>
          own'[b] == if (own[b].Data? && own[b].i == i && NDIRECT <= own[b].bn) || own[b] == Indirect(i) then Free
              else own[b])
  }

  lemma NoEntries(sb: Super, disk: ByteDisk, inodes: seq<Inode>, own: Owners, i: nat, own0: Owners)
    requires TruncOk(sb, disk, inodes, own, i, MAXFILE) && EntriesTrimmed(own0, own, i, MAXFILE)
    ensures forall b :: 0 <= b < |own| && own[b].Data? && own[b].i == i ==> own[b].bn < NDIRECT
  {
    forall b | 0 <= b < |own| && own[b].Data? && own[b].i == i ensures own[b].bn < NDIRECT {
      assert BlockOk(sb, disk, inodes, own, b);
    }
  }

  lemma IndirectGone(sb: Super, disk: ByteDisk, inodes: seq<Inode>, own0: Owners, own: Owners, i: nat)
    requires TruncOk(sb, disk, inodes, own, i, MAXFILE) && EntriesTrimmed(own0, own, i, MAXFILE) && i < |inodes|
    requires |inodes[i].addrs| == NDIRECT + 1 && 0 < inodes[i].addrs[NDIRECT] < |own|
    requires forall b :: 0 <= b < |own| && own[b].Data? && own[b].i == i ==> own[b].bn < NDIRECT
    ensures IndirectTrimmed(own0, own[inodes[i].addrs[NDIRECT] := Free], i)
  {
    var own' := own[inodes[i].addrs[NDIRECT] := Free];
    IndirectIs(sb, disk, inodes, own, i, MAXFILE, i);
    forall b | 0 <= b < |own0|
      ensures own'[b] ==
              if (own0[b].Data? && own0[b].i == i && NDIRECT <= own0[b].bn) || own0[b] == Indirect(i) then Free
                  else own0[b]
    {
      assert BlockOk(sb, disk, inodes, own, b);
      assert own[b] == if own0[b].Data? && own0[b].i == i && NDIRECT <= own0[b].bn < MAXFILE then Free else own0[b];
    }
  }

  /** Every block of inode `i` has been freed, and nothing else. */
  ghost predicate AllTrimmed(own: Owners, own': Owners, i: nat) {
    && |own'| == |own|
    && (forall b {:trigger own'[b]} :: 0 <= b < |own| ==>
          own'[b] == if (own[b].Data? || own[b].Indirect?) && own[b].i == i then Free else own[b])
  }

  lemma TrimAll(own: Owners, own1: Owners, own2: Owners, i: nat)
    requires OwnTrimmed(own, own1, i, NDIRECT) && IndirectTrimmed(own1, own2, i)
    ensures AllTrimmed(own, own2, i)
  {
  }

  /** The bitmap blocks of the blocks that have been freed. */
  ghost function Cleared(sb: Super, own: Owners, own': Owners): (s: set<nat>)
    requires |own'| == |own|
  {
    set b | 0 <= b < |own| && own[b] != Free && own'[b] == Free :: BitBlock(sb, b)
  }

  /** Freeing has logged the bitmap blocks of what was freed, and nothing else. */
  ghost predicate FreeLog(sb: Super, logged: set<nat>, own: Owners, logged': set<nat>, own': Owners) {
    && |own'| == |own|
    && forall k: int {:trigger Sought(k)} :: Sought(k) ==> logged' == logged + Cleared(sb, own, own')
  }

  lemma FreeLogNone(sb: Super, logged: set<nat>, own: Owners)
    ensures FreeLog(sb, logged, own, logged, own)
  {
    assert Cleared(sb, own, own) == {};
  }

  lemma FreeLogMore(sb: Super, logged: set<nat>, own: Owners, logged1: set<nat>, own1: Owners, b: nat)
    requires FreeLog(sb, logged, own, logged1, own1) && b < |own| && own[b] != Free
    ensures FreeLog(sb, logged, own, logged1 + {BitBlock(sb, b)}, own1[b := Free])
  {
    assert Sought(0);
    var s, t := Cleared(sb, own, own1), Cleared(sb, own, own1[b := Free]);
    forall x | x in t ensures x in s + {BitBlock(sb, b)} {
      var c :| 0 <= c < |own| && own[c] != Free && own1[b := Free][c] == Free && BitBlock(sb, c) == x;
      assert c != b ==> own1[c] == Free;
    }
    forall x | x in s ensures x in t {
      var c :| 0 <= c < |own| && own[c] != Free && own1[c] == Free && BitBlock(sb, c) == x;
      assert own1[b := Free][c] == Free;
    }
    assert own1[b := Free][b] == Free;
    assert t == s + {BitBlock(sb, b)};
  }

  lemma FreeLogTrans(sb: Super, logged: set<nat>, own: Owners, logged1: set<nat>, own1: Owners, logged2: set<nat>,
                     own2: Owners)
    requires FreeLog(sb, logged, own, logged1, own1) && FreeLog(sb, logged1, own1, logged2, own2)
    requires forall b {:trigger own1[b]} :: 0 <= b < |own| ==> own1[b] == own[b] || own1[b] == Free
    requires forall b {:trigger own2[b]} :: 0 <= b < |own| ==> own2[b] == own1[b] || own2[b] == Free
    ensures FreeLog(sb, logged, own, logged2, own2)
  {
    assert Sought(0);
    var s, t, u := Cleared(sb, own, own1), Cleared(sb, own1, own2), Cleared(sb, own, own2);
    forall x | x in u ensures x in s + t {
      var c :| 0 <= c < |own| && own[c] != Free && own2[c] == Free && BitBlock(sb, c) == x;
      assert if own1[c] == Free then x in s else x in t;
    }
    forall x | x in s ensures x in u {
      var c :| 0 <= c < |own| && own[c] != Free && own1[c] == Free && BitBlock(sb, c) == x;
      assert own2[c] == Free;
    }
    forall x | x in t ensures x in u {
      var c :| 0 <= c < |own| && own1[c] != Free && own2[c] == Free && BitBlock(sb, c) == x;
      assert own[c] != Free;
    }
    assert u == s + t;
  }

  /** The bitmap blocks of the blocks of inode `i`, its indirect block among them. */
  ghost function MapsOf(sb: Super, own: Owners, i: nat): (s: set<nat>) {
    set b | 0 <= b < |own| && (own[b].Data? || own[b].Indirect?) && own[b].i == i :: BitBlock(sb, b)
  }

  /** A truncation logs one block more than the file has bitmap blocks. */
  lemma TruncCount(sb: Super, own: Owners, i: nat)
    requires Layout(sb) && |own| == sb.size && i < sb.ninodes
    ensures |MapsOf(sb, own, i) + {InodeBlock(sb, i)}| == |MapsOf(sb, own, i)| + 1
  {
    forall x | x in MapsOf(sb, own, i) ensures x != InodeBlock(sb, i) {
      var b :| 0 <= b < |own| && (own[b].Data? || own[b].Indirect?) && own[b].i == i && BitBlock(sb, b) == x;
      BlocksInPlace(sb, b, i);
    }
  }

  /** With at most nine bitmap blocks on the disk every file is within the log's allowance. */
  lemma FewMaps(sb: Super, own: Owners, i: nat)
    requires Layout(sb) && |own| == sb.size <= 9 * BPB
    ensures |MapsOf(sb, own, i)| < DiskTypes.MAXOPBLOCKS
  {
    forall x | x in MapsOf(sb, own, i) ensures sb.bmapstart <= x < sb.bmapstart + 9 {
      var b :| 0 <= b < |own| && (own[b].Data? || own[b].Indirect?) && own[b].i == i && BitBlock(sb, b) == x;
    }
    RangeSize(sb.bmapstart, sb.bmapstart + 9, MapsOf(sb, own, i));
  }

  lemma TrimmedMaps(sb: Super, own: Owners, own': Owners, i: nat)
    requires AllTrimmed(own, own', i)
    ensures Cleared(sb, own, own') == MapsOf(sb, own, i)
  {
    forall x | x in Cleared(sb, own, own') ensures x in MapsOf(sb, own, i) {
      var c :| 0 <= c < |own| && own[c] != Free && own'[c] == Free && BitBlock(sb, c) == x;
      assert (own[c].Data? || own[c].Indirect?) && own[c].i == i;
    }
    forall x | x in MapsOf(sb, own, i) ensures x in Cleared(sb, own, own') {
      var c :| 0 <= c < |own| && (own[c].Data? || own[c].Indirect?) && own[c].i == i && BitBlock(sb, c) == x;
      assert own'[c] == Free;
    }
  }

  /** Without an indirect block there is nothing above the direct blocks. */
  lemma NoIndirect(sb: Super, disk: ByteDisk, inodes: seq<Inode>, own: Owners, i: nat)
    requires FsOk(sb, disk, inodes, own) && i < |inodes| && |inodes[i].addrs| == NDIRECT + 1
             && inodes[i].addrs[NDIRECT] == 0
    ensures IndirectTrimmed(own, own, i)
  {
    forall b | 0 <= b < |own| ensures !(own[b].Data? && own[b].i == i && NDIRECT <= own[b].bn) && own[b] != Indirect(i)
    {
      assert BlockOk(sb, disk, inodes, own, b);
      assert Marked(sb, disk, b) <==> own[b] != Free;
      assert BlockOk(sb, disk, inodes, own, 0);
    }
  }

  lemma Resize(sb: Super, disk: ByteDisk, inodes: seq<Inode>, own: Owners, i: nat, size: nat)
    requires FsOk(sb, disk, inodes, own) && i < |inodes| && size <= MAXSIZE
    ensures var inodes' := inodes[i := inodes[i].(size := size)];
            && FsOk(sb, disk, inodes', own)
            && (forall j, c: nat :: 0 <= j < |inodes| ==> BlockOf(disk, inodes'[j], c) == BlockOf(disk, inodes[j], c))
  {
    var inodes' := inodes[i := inodes[i].(size := size)];
    forall j, c: nat | 0 <= j < |inodes| ensures BlockOf(disk, inodes'[j], c) == BlockOf(disk, inodes[j], c) {}
    forall b | 0 <= b < sb.size ensures BlockOk(sb, disk, inodes', own, b) { assert BlockOk(sb, disk, inodes, own, b); }
    forall j | 0 <= j < |inodes| ensures InodeOk(sb, disk, own, inodes'[j], j, 0) {
      assert InodeOk(sb, disk, own, inodes[j], j, 0);
    }
  }

  /** A file reads the same on both disks. */
  ghost predicate SameFile(disk: ByteDisk, disk': ByteDisk, ino: Inode) {
    && (forall c: nat {:trigger BlockOf(disk', ino, c)} :: BlockOf(disk', ino, c) == BlockOf(disk, ino, c))
    && (forall a: nat {:trigger FileByte(disk', ino, a)} :: FileByte(disk', ino, a) == FileByte(disk, ino, a))
  }

  /** The blocks that inode `j` names are data blocks, wherever they are. */
  lemma DataIs(sb: Super, disk: ByteDisk, inodes: seq<Inode>, own: Owners, j: nat, c: nat)
    requires FsOk(sb, disk, inodes, own) && j < |inodes| && BlockOf(disk, inodes[j], c) != 0
    ensures var b := BlockOf(disk, inodes[j], c); b < |own| && own[b] == Data(j, c) && b >= sb.datastart
                                                  && |disk[b]| == BSIZE && c < MAXFILE
  {
    assert InodeOk(sb, disk, own, inodes[j], j, 0);
    assert BlockOk(sb, disk, inodes, own, BlockOf(disk, inodes[j], c));
  }

  /** Changes to bitmap blocks alone leave files and stored inodes as they were. */
  lemma OffBitmap(sb: Super, disk: ByteDisk, inodes: seq<Inode>, own: Owners, disk': ByteDisk, j: nat)
    requires FsOk(sb, disk, inodes, own) && DiskOk(sb, disk') && j < |inodes| && NoHoles(disk, inodes[j])
             && Stored(sb, disk, inodes[j], j)
    requires forall b :: 0 <= b < |disk| && !IsBitmap(sb, b) ==> disk'[b] == disk[b]
    ensures SameFile(disk, disk', inodes[j]) && NoHoles(disk', inodes[j]) && Stored(sb, disk', inodes[j], j)
  {
    IndirectIs(sb, disk, inodes, own, 0, 0, j);
    forall c: nat ensures BlockOf(disk', inodes[j], c) == BlockOf(disk, inodes[j], c) {
      SameBlocks(disk, disk', inodes[j], c);
    }
    forall a: nat ensures FileByte(disk', inodes[j], a) == FileByte(disk, inodes[j], a) {
      if BlockOf(disk, inodes[j], BlockNo(a)) != 0 { DataIs(sb, disk, inodes, own, j, BlockNo(a)); }
    }
    BlocksInPlace(sb, 0, j);
    assert disk'[InodeBlock(sb, j)] == disk[InodeBlock(sb, j)];
  }

  /** So does a change to one inode block. */
  lemma OneInodeBlock(sb: Super, disk: ByteDisk, inodes: seq<Inode>, own: Owners, disk': ByteDisk, i: nat, j: nat)
    requires FsOk(sb, disk, inodes, own) && DiskOk(sb, disk') && i < |inodes| && j < |inodes|
             && NoHoles(disk, inodes[j])
    requires forall b :: 0 <= b < |disk| && b != InodeBlock(sb, i) ==> disk'[b] == disk[b]
    ensures SameFile(disk, disk', inodes[j]) && NoHoles(disk', inodes[j])
  {
    BlocksInPlace(sb, 0, i);
    IndirectIs(sb, disk, inodes, own, 0, 0, j);
    forall c: nat ensures BlockOf(disk', inodes[j], c) == BlockOf(disk, inodes[j], c) {
      SameBlocks(disk, disk', inodes[j], c);
    }
    forall a: nat ensures FileByte(disk', inodes[j], a) == FileByte(disk, inodes[j], a) {
      if BlockOf(disk, inodes[j], BlockNo(a)) != 0 { DataIs(sb, disk, inodes, own, j, BlockNo(a)); }
    }
  }

  lemma TrimOne(own: Owners, own1: Owners, own2: Owners, i: nat, k: nat, b: nat)
    requires b < |own| && (b != 0 ==> own[b] == Data(i, k)) && OwnTrimmed(own, own1, i, k)
    requires forall c :: 0 <= c < |own| && own[c] == Data(i, k) ==> c == b && c != 0
    requires own2 == if b == 0 then own1 else own1[b := Free]
    ensures OwnTrimmed(own, own2, i, k + 1)
  {
  }

  function NoInode(): (ino: Inode) { Inode(0, 0, 0, seq(NDIRECT + 1, _ => 0)) }

  /** A zeroed disk has no bit set. */
  lemma ZeroBits(sb: Super, disk: ByteDisk, own: Owners)
    requires Layout(sb) && |disk| == |own| == sb.size
    requires forall b :: 0 <= b < |disk| ==> disk[b] == ZeroBlock()
    requires forall b :: 0 <= b < |own| ==> own[b] == Free
    ensures DiskOk(sb, disk) && BitsOk(sb, disk, own)
  {
    forall b | 0 <= b < sb.size ensures !Marked(sb, disk, b) {
      BitmapIs(sb, b);
      NoBit(BitNo(b) % 8);
    }
  }

  /** No inode in use, every block below the data marked: a good file system. */
  lemma Blank(sb: Super, disk: ByteDisk, inodes: seq<Inode>, own: Owners)
    requires Layout(sb) && DiskOk(sb, disk) && BitsOk(sb, disk, own) && |inodes| == sb.ninodes
    requires forall i :: 0 <= i < |inodes| ==> inodes[i] == NoInode()
    requires forall b :: 0 <= b < |own| ==> own[b] == if b < sb.datastart then Meta else Free
    requires forall b :: 0 <= b < |disk| && b < sb.bmapstart ==> disk[b] == ZeroBlock()
    ensures FsOk(sb, disk, inodes, own)
    ensures forall j :: 0 <= j < |inodes| ==> NoHoles(disk, inodes[j]) && Stored(sb, disk, inodes[j], j)
  {
    forall j | 0 <= j < |inodes| ensures Stored(sb, disk, inodes[j], j) {
      BlocksInPlace(sb, 0, j);
      forall k | 0 <= k < IWORDS ensures Word(disk[InodeBlock(sb, j)], Slot(j) + k) == InodeWord(inodes[j], k) {
        WordZero(Slot(j) + k);
      }
    }
  }

  /** One log_write. */
  datatype Store = Store(b: nat, data: ByteBlock)

  /** log_write is for whole blocks from the inodes on: never for the log itself. */
  ghost predicate StoresOk(sb: Super, ws: seq<Store>) {
    forall k {:trigger ws[k]} :: 0 <= k < |ws| ==> sb.inodestart <= ws[k].b < sb.size && |ws[k].data| == BSIZE
  }

  /** The disk after these writes, in order. */
  function Replay(disk: ByteDisk, ws: seq<Store>): (r: ByteDisk)
    ensures |r| == |disk|
  {
    if ws == [] then disk
    else
      var r, w := Replay(disk, ws[..|ws| - 1]), ws[|ws| - 1];
      if w.b < |disk| then r[w.b := w.data] else r
  }

  function BlocksOf(ws: seq<Store>): (s: set<nat>) {
    if ws == [] then {} else BlocksOf(ws[..|ws| - 1]) + {ws[|ws| - 1].b}
  }

  lemma ReplayMore(disk: ByteDisk, ws: seq<Store>, w: Store)
    requires w.b < |disk|
    ensures Replay(disk, ws + [w]) == Replay(disk, ws)[w.b := w.data] && BlocksOf(ws + [w]) == BlocksOf(ws) + {w.b}
  {
    assert (ws + [w])[..|ws|] == ws;
  }

  /** What writei was called for, and what it started from. */
  datatype Job = Job(disk: ByteDisk, inodes: seq<Inode>, logged: set<nat>, i: nat, off: nat, src: seq<Byte>)

  lemma JobStarts(sb: Super, own: Owners, j: Job)
    requires FsOk(sb, j.disk, j.inodes, own) && j.i < |j.inodes| && NoHoles(j.disk, j.inodes[j.i])
             && j.off <= j.inodes[j.i].size
    ensures Progress(sb, j.disk, j.inodes, j.disk, j.inodes, j.i, j.off, j.src[..0])
    ensures Spent(sb, j.logged, j.logged, Ind(j.inodes[j.i]), Ind(j.inodes[j.i]), {}, {}, j.off, 0)
    ensures Offset(j.off) != 0 ==> BlockOf(j.disk, j.inodes[j.i], BlockNo(j.off)) != 0
  {
    assert InodeOk(sb, j.disk, own, j.inodes[j.i], j.i, 0);
    if Offset(j.off) != 0 {
      Inside(j.disk, j.inodes[j.i], j.off);
    }
  }

  /** A file system image: the disk, the inodes it stores, and who owns each block. */
  datatype Picture = Picture(disk: ByteDisk, inodes: seq<Inode>, own: Owners)

  /**
   * What holds between operations: the free map is right, no block is lost, no file has a hole, every inode is on disk.
   */
  ghost predicate Good(sb: Super, x: Picture) {
    && FsOk(sb, x.disk, x.inodes, x.own) && NoFresh(x.own)
    && (forall j {:trigger x.inodes[j]} :: 0 <= j < |x.inodes| ==>
        NoHoles(x.disk, x.inodes[j]) && Stored(sb, x.disk, x.inodes[j], j))
  }

  /** Inode `i` as ilock reads it off the disk. */
  function ReadInode(sb: Super, disk: ByteDisk, i: nat): (ino: Inode)
    requires Layout(sb) && DiskOk(sb, disk) && i < sb.ninodes
  {
    BlocksInPlace(sb, 0, i);
    var b := disk[InodeBlock(sb, i)];
    Inode(Word(b, Slot(i)), Word(b, Slot(i) + 1), Word(b, Slot(i) + 2),
          seq<nat>(NDIRECT + 1, k requires 0 <= k <= NDIRECT => Word(b, Slot(i) + 3 + k)))
  }

  /** ilock reads back what iupdate stored. */
  lemma ReadStored(sb: Super, disk: ByteDisk, ino: Inode, i: nat)
    requires Layout(sb) && DiskOk(sb, disk) && i < sb.ninodes && |ino.addrs| == NDIRECT + 1
    requires Stored(sb, disk, ino, i)
    ensures ReadInode(sb, disk, i) == ino
  {
    var r := ReadInode(sb, disk, i);
    assert InodeWord(ino, 0) == r.kind && InodeWord(ino, 1) == r.links && InodeWord(ino, 2) == r.size;
    forall k | 0 <= k <= NDIRECT ensures r.addrs[k] == ino.addrs[k] {
      assert InodeWord(ino, k + 3) == ino.addrs[k];
    }
  }

  /** Nothing depends on what is below the inodes: boot block, superblock and log. */
  lemma SameAbove(sb: Super, x: Picture, disk: ByteDisk)
    requires Good(sb, x) && DiskOk(sb, disk)
    requires forall b :: sb.inodestart <= b < |disk| ==> disk[b] == x.disk[b]
    ensures Good(sb, x.(disk := disk))
    ensures forall i, a: nat :: 0 <= i < |x.inodes| ==>
              FileByte(disk, x.inodes[i], a) == FileByte(x.disk, x.inodes[i], a)
  {
    forall b | 0 <= b < sb.size ensures Marked(sb, disk, b) <==> x.own[b] != Free {
      BitmapIs(sb, b);
      assert Marked(sb, x.disk, b) <==> x.own[b] != Free;
    }
    forall b | 0 <= b < |disk| && x.own[b].Indirect? ensures disk[b] == x.disk[b] {
      assert BlockOk(sb, x.disk, x.inodes, x.own, b);
    }
    KeepOk(sb, x.disk, x.inodes, x.own, disk, x.own, 0, 0);
    forall j | 0 <= j < |x.inodes| ensures NoHoles(disk, x.inodes[j]) && Stored(sb, disk, x.inodes[j], j) {
      BlocksInPlace(sb, 0, j);
      assert NoHoles(x.disk, x.inodes[j]) && Stored(sb, x.disk, x.inodes[j], j);
    }
    forall i, a: nat | 0 <= i < |x.inodes| ensures FileByte(disk, x.inodes[i], a) == FileByte(x.disk, x.inodes[i], a) {
      if BlockOf(x.disk, x.inodes[i], BlockNo(a)) != 0 { DataIs(sb, x.disk, x.inodes, x.own, i, BlockNo(a)); }
    }
  }

  class FileSystem {
    const sb: Super
    var disk: ByteDisk
    var inodes: seq<Inode>
    ghost var own: Owners
    /** What has been passed to log_write in this transaction, and what the disk was before it. */
    var writes: seq<Store>
    ghost var logged: set<nat>
    ghost var start: ByteDisk

    /** The disk changes by log_write only. */
    ghost predicate Tracked()
      reads this
    {
      forall k: int {:trigger Asked(k)} :: Asked(k) ==>
        disk == Replay(start, writes) && logged == BlocksOf(writes) && StoresOk(sb, writes)
    }

    lemma TrackedIs()
      requires Tracked()
      ensures disk == Replay(start, writes) && logged == BlocksOf(writes) && StoresOk(sb, writes)
    {
      assert Asked(0);
    }

    ghost predicate Ok()
      reads this
    {
      && Layout(sb) && DiskOk(sb, disk) && |own| == sb.size && |inodes| == sb.ninodes && Tracked()
      && forall k: int {:trigger Asked(k)} :: Asked(k) ==> FsOk(sb, disk, inodes, own)
    }

    lemma OkIs()
      requires Ok()
      ensures FsOk(sb, disk, inodes, own)
    {
      assert Asked(0);
    }

    /** log_write of block `b`, changed to `data` in its buffer. */
    method LogWrite(b: nat, data: ByteBlock)
      requires sb.inodestart <= b < sb.size == |disk| && |data| == BSIZE && Tracked()
      modifies this`disk, this`logged, this`writes
      ensures disk == old(disk)[b := data] && logged == old(logged) + {b} && writes == old(writes) + [Store(b, data)]
              && Tracked()
    {
      TrackedIs();
      ReplayMore(start, writes, Store(b, data));
      disk := disk[b := data];
      logged := logged + {b};
      writes := writes + [Store(b, data)];
    }

    /** Mark block `b` in use. */
    method MarkBlock(b: nat)
      requires Ok() && b < sb.size && own[b] == Free
      modifies this`disk, this`own, this`logged, this`writes
      ensures Ok() && own == old(own)[b := Fresh] && b >= sb.datastart && logged == old(logged) + {BitBlock(sb, b)}
      ensures BitBlock(sb, b) < |disk| && disk == old(disk)[BitBlock(sb, b) := disk[BitBlock(sb, b)]]
              && IsBitmap(sb, BitBlock(sb, b))
      ensures forall j, c: nat :: 0 <= j < |inodes| ==> BlockOf(disk, inodes[j], c) == BlockOf(old(disk), inodes[j], c)
    {
      OkIs();
      ghost var disk0, own0 := disk, own;
      assert BlockOk(sb, disk, inodes, own, b);
      BitmapIs(sb, b);
      FlipBit(sb, disk, own, b, true, Fresh);
      var bb, bi := BitBlock(sb, b), BitNo(b);
      assert BlockOk(sb, disk, inodes, own, bb);
      LogWrite(bb, SetBit(disk[bb], bi, true));
      own := own[b := Fresh];
      KeepOk(sb, disk0, inodes, own0, disk, own, 0, 0);
    }

    /** bzero, of a block that no file has yet. */
    method Bzero(b: nat)
      requires Ok() && b < sb.size && own[b] == Fresh && b >= sb.datastart
      modifies this`disk, this`logged, this`writes
      ensures Ok() && disk == old(disk)[b := ZeroBlock()] && logged == old(logged) + {b}
      ensures forall j, c: nat :: 0 <= j < |inodes| ==> BlockOf(disk, inodes[j], c) == BlockOf(old(disk), inodes[j], c)
    {
      OkIs();
      ghost var disk0 := disk;
      KeepBits(sb, disk, own, b, ZeroBlock());
      KeepOk(sb, disk, inodes, own, disk[b := ZeroBlock()], own, 0, 0);
      LogWrite(b, ZeroBlock());
    }

    /** Mark block `b` in use, then zero it. */
    method TakeBlock(b: nat)
      requires Ok() && b < sb.size && own[b] == Free
      modifies this`disk, this`own, this`logged, this`writes
      ensures Ok() && own == old(own)[b := Fresh] && b >= sb.datastart
      ensures KeepsData(sb, old(disk), old(own), disk, own)
      ensures |disk| == |old(disk)| && disk[b] == ZeroBlock()
      ensures forall j, c: nat :: 0 <= j < |inodes| ==> BlockOf(disk, inodes[j], c) == BlockOf(old(disk), inodes[j], c)
      ensures logged == old(logged) + {BitBlock(sb, b)} + {b}
    {
      ghost var disk0, own0 := disk, own;
      OkIs();
      MetaIs(sb, disk, inodes, own);
      MarkBlock(b);
      Bzero(b);
    }

    /** balloc's search: the first block whose bit is clear, sb.size when there is none. */
    method FindFree() returns (r: nat)
      requires Ok()
      ensures r <= sb.size && (r < sb.size ==> own[r] == Free)
      ensures r == sb.size ==> forall c :: 0 <= c < |own| ==> own[c] != Free
    {
      OkIs();
      var b := 0;
      while b < sb.size
        invariant BitNo(b) == 0
        invariant forall c :: 0 <= c < b && c < |own| ==> own[c] != Free
      {
        var bp := disk[BitBlock(sb, b)];
        var bi := 0;
        while bi < BPB && b + bi < sb.size
          invariant 0 <= bi <= BPB
          invariant forall c :: 0 <= c < b + bi && c < |own| ==> own[c] != Free
        {
          assert MapNo(b + bi) == MapNo(b) && BitNo(b + bi) == bi;
          assert Marked(sb, disk, b + bi) <==> own[b + bi] != Free;
          if !Bit(bp, bi) {
            return b + bi;
          }
          bi := bi + 1;
        }
        b := b + BPB;
      }
      return sb.size;
    }

    /** balloc: take a free block and zero it; 0 when none is free. */
    method Balloc() returns (r: nat)
      requires Ok()
      modifies this`disk, this`own, this`logged, this`writes
      ensures Ok()
      ensures r == 0 ==> disk == old(disk) && own == old(own) && logged == old(logged) && writes == old(writes)
      ensures r == 0 ==> forall c :: 0 <= c < |own| ==> own[c] != Free
      ensures r != 0 ==> sb.datastart <= r < sb.size && old(own)[r] == Free && own == old(own)[r := Fresh]
      ensures r != 0 ==> |disk| == |old(disk)| && disk[r] == ZeroBlock()
      ensures KeepsData(sb, old(disk), old(own), disk, own)
      ensures forall j, c: nat :: 0 <= j < |inodes| ==> BlockOf(disk, inodes[j], c) == BlockOf(old(disk), inodes[j], c)
      ensures logged == old(logged) + Charge(sb, 0, r)
    {
      r := FindFree();
      if r == sb.size {
        return 0;
      }
      TakeBlock(r);
    }

    /** bfree: clear the bit of block `b`. The check that it was set never fails. */
    method Bfree(b: nat)
      requires Layout(sb) && DiskOk(sb, disk) && BitsOk(sb, disk, own) && b < sb.size && own[b] != Free && Tracked()
      modifies this`disk, this`own, this`logged, this`writes
      ensures DiskOk(sb, disk) && own == old(own)[b := Free] && BitsOk(sb, disk, own) && Tracked()
      ensures forall c :: 0 <= c < |disk| && c != BitBlock(sb, b) ==> disk[c] == old(disk)[c]
      ensures logged == old(logged) + {BitBlock(sb, b)}
    {
      BitmapIs(sb, b);
      assert own[b] != Free && Marked(sb, disk, b);
      FlipBit(sb, disk, own, b, false, Free);
      var bb, bi := BitBlock(sb, b), BitNo(b);
      var bp := disk[bb];
      if !Bit(bp, bi) {
        assert false;
      }
      LogWrite(bb, SetBit(bp, bi, false));
      own := own[b := Free];
    }

    /** What bmap promises, whether or not it finds room. */
    twostate predicate Mapped(i: nat, bn: nat)
      reads this
    {
      && Ok() && i < |inodes| && |inodes| == |old(inodes)| && |disk| == |old(disk)|
      && SameBlocksBut(old(disk), old(inodes), disk, inodes, i, bn)
      && (forall j {:trigger inodes[j]} :: 0 <= j < |inodes| && j != i ==> inodes[j] == old(inodes)[j])
      && inodes[i] == old(inodes)[i].(addrs := inodes[i].addrs)
      && KeepsData(sb, old(disk), old(own), disk, own)
      && (NoFresh(old(own)) ==> NoFresh(own))
    }

    /** A direct block for bmap: the one there is, or a new one. */
    method MapDirect(i: nat, bn: nat) returns (addr: nat)
      requires Ok() && i < |inodes| && bn < NDIRECT
      modifies this`disk, this`inodes, this`own, this`logged, this`writes
      ensures Mapped(i, bn) && addr == BlockOf(disk, inodes[i], bn)
      ensures BlockOf(old(disk), old(inodes)[i], bn) != 0 ==>
        disk == old(disk) && inodes == old(inodes) && own == old(own) && logged == old(logged) && writes == old(writes)
      ensures addr != 0 && BlockOf(old(disk), old(inodes)[i], bn) == 0 ==> addr < |disk| && disk[addr] == ZeroBlock()
      ensures addr == 0 ==> forall c :: 0 <= c < |own| ==> own[c] != Free
      ensures logged <= old(logged) + Charge(sb, BlockOf(old(disk), old(inodes)[i], bn), addr)
      ensures |inodes[i].addrs| == |old(inodes)[i].addrs| == NDIRECT + 1
              && inodes[i].addrs[NDIRECT] == old(inodes)[i].addrs[NDIRECT]
    {
      OkIs();
      assert InodeOk(sb, disk, own, inodes[i], i, 0);
      addr := inodes[i].addrs[bn];
      if addr == 0 {
        addr := Balloc();
        if addr != 0 {
          StoreDirect(i, bn, addr);
        }
      }
    }

    /** A fresh block becomes a direct block of the file. */
    method StoreDirect(i: nat, bn: nat, addr: nat)
      requires Ok() && i < |inodes| && bn < NDIRECT && BlockOf(disk, inodes[i], bn) == 0 && 0 < addr < |own|
               && own[addr] == Fresh
      modifies this`inodes, this`own
      ensures Ok() && own == old(own)[addr := Data(i, bn)] && BlockOf(disk, inodes[i], bn) == addr
      ensures |inodes[i].addrs| == |old(inodes)[i].addrs| == NDIRECT + 1
              && inodes[i].addrs[NDIRECT] == old(inodes)[i].addrs[NDIRECT]
      ensures inodes == old(inodes)[i := old(inodes)[i].(addrs := inodes[i].addrs)]
              && SameBlocksBut(disk, old(inodes), disk, inodes, i, bn)
    {
      OkIs();
      assert InodeOk(sb, disk, own, inodes[i], i, 0);
      LinkDirect(sb, disk, inodes, own, i, bn, addr);
      inodes := inodes[i := inodes[i].(addrs := inodes[i].addrs[bn := addr])];
      own := own[addr := Data(i, bn)];
    }

    /** The indirect block for bmap: the one there is, or a new one, with no stale addresses in it. */
    method MapIndirect(i: nat) returns (a: nat)
      requires Ok() && i < |inodes|
      modifies this`disk, this`inodes, this`own, this`logged, this`writes
      ensures Mapped(i, MAXFILE) && |inodes[i].addrs| == NDIRECT + 1 && a == inodes[i].addrs[NDIRECT]
      ensures KeepsIndirect(old(inodes)[i], inodes[i])
      ensures |old(inodes)[i].addrs| == NDIRECT + 1 && old(inodes)[i].addrs[NDIRECT] != 0 ==>
        disk == old(disk) && inodes == old(inodes) && own == old(own) && logged == old(logged) && writes == old(writes)
      ensures forall j, c: nat :: 0 <= j < |inodes| ==>
                BlockOf(disk, inodes[j], c) == BlockOf(old(disk), old(inodes)[j], c)
      ensures a == 0 ==> forall c :: 0 <= c < |own| ==> own[c] != Free
      ensures logged <= old(logged) + Charge(sb, Ind(old(inodes)[i]), a)
    {
      OkIs();
      assert InodeOk(sb, disk, own, inodes[i], i, 0);
      a := inodes[i].addrs[NDIRECT];
      if a == 0 {
        a := Balloc();
        if a != 0 {
          StoreIndirect(i, a);
        }
      }
    }

    /** A fresh block, all zeros, becomes the indirect block. */
    method StoreIndirect(i: nat, a: nat)
      requires Ok() && i < |inodes| && Ind(inodes[i]) == 0 && 0 < a < |own| && own[a] == Fresh && disk[a] == ZeroBlock()
      modifies this`inodes, this`own
      ensures Ok() && own == old(own)[a := Indirect(i)] && KeepsIndirect(old(inodes)[i], inodes[i])
              && Ind(inodes[i]) == a
      ensures inodes == old(inodes)[i := old(inodes)[i].(addrs := inodes[i].addrs)]
      ensures forall j, c: nat :: 0 <= j < |inodes| ==> BlockOf(disk, inodes[j], c) == BlockOf(disk, old(inodes)[j], c)
    {
      OkIs();
      forall k: nat | k < NINDIRECT ensures Word(disk[a], k) == 0 { WordZero(k); }
      assert InodeOk(sb, disk, own, inodes[i], i, 0);
      LinkIndirect(sb, disk, inodes, own, i, a);
      inodes := inodes[i := inodes[i].(addrs := inodes[i].addrs[NDIRECT := a])];
      own := own[a := Indirect(i)];
    }

    /** A block named in the indirect block, for bmap: the one there is, or a new one. */
    method MapEntry(i: nat, bn: nat) returns (addr: nat)
      requires Ok() && i < |inodes| && NDIRECT <= bn < MAXFILE
      requires |inodes[i].addrs| == NDIRECT + 1 && inodes[i].addrs[NDIRECT] != 0
      modifies this`disk, this`inodes, this`own, this`logged, this`writes
      ensures Mapped(i, bn) && inodes == old(inodes) && addr == BlockOf(disk, inodes[i], bn)
      ensures BlockOf(old(disk), inodes[i], bn) != 0 ==>
                disk == old(disk) && own == old(own) && logged == old(logged) && writes == old(writes)
      ensures addr != 0 && BlockOf(old(disk), inodes[i], bn) == 0 ==> addr < |disk| && disk[addr] == ZeroBlock()
      ensures addr == 0 ==> forall c :: 0 <= c < |own| ==> own[c] != Free
      ensures logged <= old(logged) + One(Ind(inodes[i])) + Charge(sb, BlockOf(old(disk), inodes[i], bn), addr)
    {
      OkIs();
      var a := inodes[i].addrs[NDIRECT];
      IndirectIs(sb, disk, inodes, own, 0, 0, i);
      addr := Word(disk[a], bn - NDIRECT);
      if addr == 0 {
        addr := Balloc();
        if addr != 0 {
          StoreEntry(i, bn, addr);
        }
      }
    }

    /** A fresh block becomes one that the indirect block names. */
    method StoreEntry(i: nat, bn: nat, addr: nat)
      requires Ok() && i < |inodes| && NDIRECT <= bn < MAXFILE && BlockOf(disk, inodes[i], bn) == 0 && 0 < addr < |own|
               && own[addr] == Fresh
      requires |inodes[i].addrs| == NDIRECT + 1 && inodes[i].addrs[NDIRECT] != 0
      modifies this`disk, this`own, this`logged, this`writes
      ensures Ok() && own == old(own)[addr := Data(i, bn)] && BlockOf(disk, inodes[i], bn) == addr
      ensures Ind(inodes[i]) < |disk| && disk == old(disk)[Ind(inodes[i]) := disk[Ind(inodes[i])]]
              && old(own)[Ind(inodes[i])] == Indirect(i)
      ensures SameBlocksBut(old(disk), inodes, disk, inodes, i, bn) && logged == old(logged) + {Ind(inodes[i])}
              && Ind(inodes[i]) >= sb.datastart
    {
      OkIs();
      var a := inodes[i].addrs[NDIRECT];
      IndirectIs(sb, disk, inodes, own, 0, 0, i);
      LinkEntry(sb, disk, inodes, own, i, bn, addr);
      LogWrite(a, SetWord(disk[a], bn - NDIRECT, addr));
      own := own[addr := Data(i, bn)];
    }

    /** What bmap may log: the indirect block and the block it returns, and the bitmap block of each that is new. */
    twostate predicate Charged(i: nat, bn: nat, addr: nat)
      reads this
    {
      && i < |inodes| && i < |old(inodes)| && KeepsIndirect(old(inodes)[i], inodes[i])
      && logged <= old(logged) + Charge(sb, Ind(old(inodes)[i]), Ind(inodes[i]))
         + Charge(sb, BlockOf(old(disk), old(inodes)[i], bn), addr)
    }

    /** bmap: the disk block for block `bn` of inode `i`, allocating what is missing; 0 when out of space. */
    method Bmap(i: nat, bn: nat) returns (addr: nat)
      requires Ok() && i < |inodes| && bn < MAXFILE
      modifies this`disk, this`inodes, this`own, this`logged, this`writes
      ensures Mapped(i, bn) && addr == BlockOf(disk, inodes[i], bn)
      ensures BlockOf(old(disk), old(inodes)[i], bn) != 0 ==>
        disk == old(disk) && inodes == old(inodes) && own == old(own) && logged == old(logged) && writes == old(writes)
      ensures addr != 0 && BlockOf(old(disk), old(inodes)[i], bn) == 0 ==> addr < |disk| && disk[addr] == ZeroBlock()
      ensures addr == 0 ==> forall c :: 0 <= c < |own| ==> own[c] != Free
      ensures Charged(i, bn, addr)
    {
      if bn < NDIRECT {
        addr := MapDirect(i, bn);
        return;
      }
      addr := MapIndirect(i);
      if addr != 0 {
        addr := MapEntry(i, bn);
      }
    }

    /** iupdate: store the in-memory inode in its slot of the inode blocks. */
    method Iupdate(i: nat)
      requires Ok() && i < |inodes|
      modifies this`disk, this`logged, this`writes
      ensures Ok() && |disk| == |old(disk)|
      ensures Stored(sb, disk, inodes[i], i)
      ensures forall j, ino :: 0 <= j < |inodes| && j != i && Stored(sb, old(disk), ino, j) ==> Stored(sb, disk, ino, j)
      ensures forall b :: 0 <= b < |disk| && b != InodeBlock(sb, i) ==> disk[b] == old(disk)[b]
      ensures forall j, c: nat :: 0 <= j < |inodes| ==> BlockOf(disk, inodes[j], c) == BlockOf(old(disk), inodes[j], c)
      ensures logged == old(logged) + {InodeBlock(sb, i)} && |writes| == |old(writes)| + 1
              && writes[..|old(writes)|] == old(writes)
    {
      OkIs();
      var ib, ino := InodeBlock(sb, i), inodes[i];
      BlocksInPlace(sb, 0, i);
      assert InodeOk(sb, disk, own, ino, i, 0);
      var bp := disk[ib];
      var k := 0;
      while k < IWORDS
        invariant 0 <= k <= IWORDS && disk == old(disk) && logged == old(logged) && writes == old(writes)
                  && Partly(disk[ib], bp, Slot(i), k, ino)
      {
        PartlyMore(disk[ib], bp, Slot(i), k, ino);
        bp := SetWord(bp, Slot(i) + k, InodeWord(ino, k));
        k := k + 1;
      }
      ghost var disk' := disk[ib := bp];
      KeepBits(sb, disk, own, ib, bp);
      assert BlockOk(sb, disk, inodes, own, ib);
      KeepOk(sb, disk, inodes, own, disk', own, 0, 0);
      StoredKept(sb, disk, disk', i);
      LogWrite(ib, bp);
    }

    /** The file system between operations: no file has holes, the disk has every inode, and no block is lost. */
    ghost predicate Valid()
      reads this
    {
      && Ok() && NoFresh(own)
      && forall k: int {:trigger Asked(k)} :: Asked(k) ==>
           forall j {:trigger inodes[j]} :: 0 <= j < |inodes| ==>
                 NoHoles(disk, inodes[j]) && Stored(sb, disk, inodes[j], j)
    }

    lemma ValidIs()
      requires Valid()
      ensures FsOk(sb, disk, inodes, own)
      ensures forall j {:trigger inodes[j]} :: 0 <= j < |inodes| ==>
                NoHoles(disk, inodes[j]) && Stored(sb, disk, inodes[j], j)
    {
      assert Asked(0);
    }

    /** What mkfs lays out before it adds the first file: the blocks below the data are marked, nothing else is. */
    constructor Format(s: Super)
      requires Layout(s)
      ensures Valid() && sb == s && |inodes| == s.ninodes && forall i :: 0 <= i < |inodes| ==> inodes[i] == NoInode()
      ensures |own| == s.size && forall b :: 0 <= b < |own| ==> own[b] == if b < s.datastart then Meta else Free
      ensures forall b :: 0 <= b < s.bmapstart ==> disk[b] == ZeroBlock()
    {
      sb := s;
      disk := seq(s.size, _ => ZeroBlock());
      inodes := seq(s.ninodes, _ => NoInode());
      own := seq(s.size, _ => Free);
      writes, logged := [], {};
      new;
      ZeroBits(sb, disk, own);
      var b := 0;
      while b < sb.datastart
        invariant 0 <= b <= sb.datastart && DiskOk(sb, disk) && BitsOk(sb, disk, own)
        invariant forall c :: 0 <= c < |own| ==> own[c] == if c < b then Meta else Free
        invariant forall c :: 0 <= c < |disk| && c < sb.bmapstart ==> disk[c] == ZeroBlock()
        invariant inodes == seq(s.ninodes, _ => NoInode()) && writes == [] && logged == {}
      {
        BitmapIs(sb, b);
        FlipBit(sb, disk, own, b, true, Meta);
        var bb := BitBlock(sb, b);
        disk := disk[bb := SetBit(disk[bb], BitNo(b), true)];
        own := own[b := Meta];
        b := b + 1;
      }
      Blank(sb, disk, inodes, own);
      start := disk;
    }

    /** The file system that a good disk holds. The inodes are read off the disk. */
    constructor Mount(s: Super, d: ByteDisk, ghost x: Picture)
      requires Good(s, x) && x.disk == d
      ensures Valid() && sb == s && disk == d && inodes == x.inodes && own == x.own && start == d && writes == []
    {
      sb, disk := s, d;
      inodes := seq(s.ninodes, i requires 0 <= i < s.ninodes => ReadInode(s, d, i));
      own, start, writes, logged := x.own, d, [], {};
      new;
      forall i | 0 <= i < |inodes| ensures inodes[i] == x.inodes[i] {
        assert InodeOk(s, d, x.own, x.inodes[i], i, 0);
        ReadStored(s, d, x.inodes[i], i);
      }
      assert inodes == x.inodes;
    }

    /** itrunc's loop over the direct blocks. */
    method TruncDirect(i: nat)
      requires Ok() && i < |inodes|
      modifies this`disk, this`inodes, this`own, this`logged, this`writes
      ensures Ok() && OwnTrimmed(old(own), own, i, NDIRECT) && FreeLog(sb, old(logged), old(own), logged, own)
              && MapTrimmed(sb, old(disk), old(inodes), disk, inodes, i, NDIRECT)
      ensures |inodes[i].addrs| == |old(inodes)[i].addrs| == NDIRECT + 1
              && inodes[i].addrs[NDIRECT] == old(inodes)[i].addrs[NDIRECT]
    {
      OkIs();
      ghost var disk0, inodes0, own0, logged0 := disk, inodes, own, logged;
      assert InodeOk(sb, disk, own, inodes[i], i, 0);
      FreeLogNone(sb, logged, own);
      var k := 0;
      while k < NDIRECT
        invariant 0 <= k <= NDIRECT && Ok() && OwnTrimmed(own0, own, i, k) && FreeLog(sb, logged0, own0, logged, own)
                  && MapTrimmed(sb, disk0, inodes0, disk, inodes, i, k)
        invariant |inodes[i].addrs| == NDIRECT + 1 && inodes[i].addrs[NDIRECT] == inodes0[i].addrs[NDIRECT]
      {
        OkIs();
        ghost var own1 := own;
        var b := inodes[i].addrs[k];
        assert b == BlockOf(disk, inodes[i], k);
        assert InodeOk(sb, disk, own, inodes[i], i, 0);
        if b != 0 {
          ghost var disk1 := disk;
          FreeLogMore(sb, logged0, own0, logged, own, b);
          Bfree(b);
          BitmapIs(sb, b);
          assert BlockOk(sb, disk1, inodes, own1, BitBlock(sb, b));
          UnlinkDirect(sb, disk1, inodes, own1, disk, i, k);
          inodes := inodes[i := inodes[i].(addrs := inodes[i].addrs[k := 0])];
        }
        OnlyOwner(sb, disk0, inodes0, own0, i, k);
        TrimOne(own0, own1, own, i, k, b);
        k := k + 1;
      }
    }

    /** One turn of itrunc's loop over the indirect block. */
    method FreeEntry(i: nat, bn: nat, w: nat)
      requires TruncOk(sb, disk, inodes, own, i, bn) && i < |inodes| && NDIRECT <= bn < MAXFILE && Tracked()
      requires EntryAt(disk, inodes[i], bn, w)
      modifies this`disk, this`own, this`logged, this`writes
      ensures TruncOk(sb, disk, inodes, own, i, bn + 1) && Tracked()
      ensures |disk| == |old(disk)| && w < |old(own)| && own == if w == 0 then old(own) else old(own)[w := Free]
      ensures w != 0 ==> old(own)[w] == Data(i, bn)
      ensures logged == if w == 0 then old(logged) else old(logged) + {BitBlock(sb, w)}
      ensures forall b :: 0 <= b < |disk| && !IsBitmap(sb, b) ==> disk[b] == old(disk)[b]
    {
      ghost var disk0, own0 := disk, own;
      assert Asked(0);
      assert InodeOk(sb, disk, own, inodes[i], i, bn);
      if w != 0 {
        Bfree(w);
        BitmapIs(sb, w);
        assert BlockOk(sb, disk0, inodes, own0, BitBlock(sb, w));
        UnlinkEntry(sb, disk0, inodes, own0, disk, i, bn);
      } else {
        RaiseLo(sb, disk, inodes, own, i, bn);
      }
    }

    /** itrunc has gone over entries of the indirect block as far as file block `k`. */
    ghost predicate Trimming(disk0: ByteDisk, own0: Owners, logged0: set<nat>, i: nat, k: nat)
      reads this
    {
      && TruncOk(sb, disk, inodes, own, i, k) && EntriesTrimmed(own0, own, i, k) && Tracked()
      && FreeLog(sb, logged0, own0, logged, own)
      && |disk| == |disk0| && forall b :: 0 <= b < |disk| && !IsBitmap(sb, b) ==> disk[b] == disk0[b]
    }

    /** One turn of itrunc's loop over the indirect block, whose entry `j` was `w` before the loop. */
    method TruncEntry(i: nat, j: nat, w: nat, ghost disk0: ByteDisk, ghost own0: Owners, ghost logged0: set<nat>)
      requires j < NINDIRECT && i < |inodes| && FsOk(sb, disk0, inodes, own0)
      requires Trimming(disk0, own0, logged0, i, NDIRECT + j)
      requires |inodes[i].addrs| == NDIRECT + 1 && 0 < inodes[i].addrs[NDIRECT] < |disk0|
               && !IsBitmap(sb, inodes[i].addrs[NDIRECT])
      requires EntryAt(disk0, inodes[i], NDIRECT + j, w)
      modifies this`disk, this`own, this`logged, this`writes
      ensures Trimming(disk0, own0, logged0, i, NDIRECT + j + 1)
    {
      EntryIs(sb, disk0, inodes, own0, disk, i, j, w);
      ghost var own1, logged1 := own, logged;
      FreeEntry(i, NDIRECT + j, w);
      if w != 0 {
        FreeLogMore(sb, logged0, own0, logged1, own1, w);
      }
      TrimEntry(own0, own1, own, i, NDIRECT + j, w);
    }

    /** itrunc's loop over the blocks named in the indirect block. */
    method TruncEntries(i: nat)
      requires Ok() && i < |inodes| && |inodes[i].addrs| == NDIRECT + 1 && inodes[i].addrs[NDIRECT] != 0
      modifies this`disk, this`own, this`logged, this`writes
      ensures Trimming(old(disk), old(own), old(logged), i, MAXFILE)
    {
      OkIs();
      ghost var disk0, own0, logged0 := disk, own, logged;
      FreeLogNone(sb, logged, own);
      IndirectIs(sb, disk, inodes, own, 0, 0, i);
      var a := disk[inodes[i].addrs[NDIRECT]];
      var j := 0;
      LetOff(sb, disk, inodes, own, i);
      while j < NINDIRECT
        invariant 0 <= j <= NINDIRECT && Trimming(disk0, own0, logged0, i, NDIRECT + j)
      {
        TruncEntry(i, j, Word(a, j), disk0, own0, logged0);
        j := j + 1;
      }
    }

    /** The second half of itrunc: the indirect block and all it names. */
    method TruncIndirect(i: nat)
      requires Ok() && i < |inodes| && |inodes[i].addrs| == NDIRECT + 1 && inodes[i].addrs[NDIRECT] != 0
      modifies this`disk, this`inodes, this`own, this`logged, this`writes
      ensures Ok() && inodes == old(inodes)[i := old(inodes)[i].(addrs := old(inodes)[i].addrs[NDIRECT := 0])]
      ensures IndirectTrimmed(old(own), own, i) && FreeLog(sb, old(logged), old(own), logged, own)
      ensures |disk| == |old(disk)| && forall b :: 0 <= b < |disk| && !IsBitmap(sb, b) ==> disk[b] == old(disk)[b]
    {
      ghost var own0, logged0 := own, logged;
      TruncEntries(i);
      ghost var disk2, own2 := disk, own;
      var b := inodes[i].addrs[NDIRECT];
      IndirectIs(sb, disk, inodes, own, i, MAXFILE, i);
      FreeLogMore(sb, logged0, own0, logged, own, b);
      Bfree(b);
      BitmapIs(sb, b);
      assert BlockOk(sb, disk2, inodes, own2, BitBlock(sb, b));
      NoEntries(sb, disk2, inodes, own2, i, own0);
      UnlinkIndirect(sb, disk2, inodes, own2, disk, i);
      IndirectGone(sb, disk2, inodes, own0, own2, i);
      inodes := inodes[i := inodes[i].(addrs := inodes[i].addrs[NDIRECT := 0])];
    }

    /** The two halves of itrunc: every block of the file is freed, and its addresses are gone. */
    method TruncBlocks(i: nat)
      requires Ok() && i < |inodes|
      modifies this`disk, this`inodes, this`own, this`logged, this`writes
      ensures Ok() && AllTrimmed(old(own), own, i) && |disk| == |old(disk)| && |inodes| == |old(inodes)|
      ensures FreeLog(sb, old(logged), old(own), logged, own)
      ensures inodes == old(inodes)[i := old(inodes)[i].(addrs := inodes[i].addrs)]
      ensures |inodes[i].addrs| == NDIRECT + 1 && forall k :: 0 <= k <= NDIRECT ==> inodes[i].addrs[k] == 0
      ensures forall b :: 0 <= b < |disk| && !IsBitmap(sb, b) ==> disk[b] == old(disk)[b]
    {
      ghost var own0, logged0 := own, logged;
      TruncDirect(i);
      ghost var own1, logged1 := own, logged;
      assert forall k :: 0 <= k < NDIRECT ==> BlockOf(disk, inodes[i], k) == inodes[i].addrs[k];
      if inodes[i].addrs[NDIRECT] != 0 {
        TruncIndirect(i);
      } else {
        OkIs();
        NoIndirect(sb, disk, inodes, own, i);
        FreeLogNone(sb, logged, own);
      }
      TrimAll(own0, own1, own, i);
      FreeLogTrans(sb, logged0, own0, logged1, own1, logged, own);
    }

    /** Set the size of a file and store its inode. */
    method SetSize(i: nat, size: nat)
      requires Ok() && i < |inodes| && size <= MAXSIZE
      modifies this`disk, this`inodes, this`logged, this`writes
      ensures Ok() && |disk| == |old(disk)| && inodes == old(inodes)[i := old(inodes)[i].(size := size)]
      ensures Stored(sb, disk, inodes[i], i)
      ensures forall j, ino :: 0 <= j < |inodes| && j != i && Stored(sb, old(disk), ino, j) ==> Stored(sb, disk, ino, j)
      ensures forall b :: 0 <= b < |disk| && b != InodeBlock(sb, i) ==> disk[b] == old(disk)[b]
      ensures |writes| > 0 && BlocksOf(writes[..|writes| - 1]) == old(logged)
      ensures logged == old(logged) + {InodeBlock(sb, i)}
    {
      OkIs();
      TrackedIs();
      Resize(sb, disk, inodes, own, i, size);
      inodes := inodes[i := inodes[i].(size := size)];
      Iupdate(i);
    }

    lemma LoggedMaps(logged0: set<nat>, own0: Owners, i: nat)
      requires FreeLog(sb, logged0, own0, logged, own) && AllTrimmed(own0, own, i)
      ensures logged == logged0 + MapsOf(sb, own0, i)
    {
      assert Sought(0);
      TrimmedMaps(sb, own0, own, i);
    }

    /** itrunc: free every block of the file. It logs their bitmap blocks, then the inode's block. */
    method Itrunc(i: nat)
      requires Valid() && i < |inodes|
      modifies this`disk, this`inodes, this`own, this`logged, this`writes
      ensures Valid() && |inodes| == |old(inodes)| && |inodes[i].addrs| == NDIRECT + 1
      ensures inodes[i] == old(inodes)[i].(size := 0, addrs := inodes[i].addrs) && forall k :: 0 <= k <= NDIRECT ==>
                inodes[i].addrs[k] == 0
      ensures forall j :: 0 <= j < |inodes| && j != i ==> inodes[j] == old(inodes)[j]
      ensures AllTrimmed(old(own), own, i)
      ensures logged == old(logged) + MapsOf(sb, old(own), i) + {InodeBlock(sb, i)}
      ensures |writes| > 0 && BlocksOf(writes[..|writes| - 1]) == old(logged) + MapsOf(sb, old(own), i)
      ensures forall j, a: nat :: 0 <= j < |inodes| && j != i ==>
                FileByte(disk, inodes[j], a) == FileByte(old(disk), inodes[j], a)
    {
      ValidIs();
      ghost var disk0, inodes0, own0 := disk, inodes, own;
      TruncBlocks(i);
      ghost var disk1, inodes1, own1 := disk, inodes, own;
      LoggedMaps(old(logged), own0, i);
      OkIs();
      SetSize(i, 0);
      TruncDone(sb, disk0, inodes0, own0, disk1, inodes1, own1, disk, inodes, i);
    }

    /** itrunc as a transaction of its own. Within the log's allowance exactly for a file with fewer bitmap blocks. */
    method TruncOp(i: nat)
      requires Valid() && i < |inodes|
      modifies this
      ensures Valid() && |inodes| == |old(inodes)| && |inodes[i].addrs| == NDIRECT + 1
      ensures inodes[i] == old(inodes)[i].(size := 0, addrs := inodes[i].addrs)
      ensures forall k :: 0 <= k <= NDIRECT ==> inodes[i].addrs[k] == 0
      ensures forall j :: 0 <= j < |inodes| && j != i ==> inodes[j] == old(inodes)[j]
      ensures AllTrimmed(old(own), own, i)
      ensures forall j, a: nat :: 0 <= j < |inodes| && j != i ==>
                FileByte(disk, inodes[j], a) == FileByte(old(disk), inodes[j], a)
      ensures start == old(disk) && BlocksOf(writes) == MapsOf(sb, old(own), i) + {InodeBlock(sb, i)}
      ensures |BlocksOf(writes)| <= DiskTypes.MAXOPBLOCKS <==> |MapsOf(sb, old(own), i)| < DiskTypes.MAXOPBLOCKS
      ensures |writes| > 0 && BlocksOf(writes[..|writes| - 1]) == MapsOf(sb, old(own), i)
    {
      start, writes, logged := disk, [], {};
      TruncCount(sb, own, i);
      Itrunc(i);
      TrackedIs();
    }

    // ------------------------------------------------------- reading and writing

    /**
     * readi: the bytes of the file from `off` on, clipped to its size. Copies to the caller fail beyond `limit` bytes.
     */
    method Readi(i: nat, off: nat, n: nat, limit: nat) returns (r: int, data: seq<Byte>)
      requires Valid() && i < |inodes| && off < U32 && n < U32
      modifies this`disk, this`inodes, this`own, this`logged, this`writes
      ensures Valid() && disk == old(disk) && inodes == old(inodes) && own == old(own) && logged == old(logged)
              && writes == old(writes)
      ensures r == if limit < Clipped(inodes[i].size, off, n) then -1 else Clipped(inodes[i].size, off, n)
      ensures r >= 0 ==> |data| == r && FileReads(disk, inodes[i], off, data)
    {
      ValidIs();
      ghost var d0, i0, w0, l0, s0 := disk, inodes, own, logged, writes;
      data := [];
      if off > inodes[i].size || (off + n) % U32 < off {
        return 0, [];
      }
      assert InodeOk(sb, disk, own, inodes[i], i, 0);
      var n1 := if off + n > inodes[i].size then inodes[i].size - off else n;
      var o := off;
      while |data| < n1
        invariant |data| <= n1 && o == off + |data| && |data| <= limit
        invariant Valid() && disk == d0 && inodes == i0 && own == w0 && logged == l0 && writes == s0
        invariant FileReads(disk, inodes[i], off, data)
      {
        var bn, at := BlockNo(o), Offset(o);
        assert BlockOf(disk, inodes[i], bn) != 0;
        DataIs(sb, disk, inodes, own, i, bn);
        var addr := Bmap(i, bn);
        if addr == 0 {
          assert false;
          break;
        }
        var m := if n1 - |data| < BSIZE - at then n1 - |data| else BSIZE - at;
        if |data| + m > limit {
          return -1, data;
        }
        ReadChunk(disk, inodes[i], o, addr, disk[addr][at..at + m]);
        ReadMore(disk, inodes[i], off, data, o, disk[addr][at..at + m]);
        data := data + disk[addr][at..at + m];
        o := o + m;
      }
      r := |data|;
    }

    /** What one turn of writei's loop keeps, besides the bytes it writes. */
    twostate predicate Wrote(i: nat, o: nat, chunk: seq<Byte>)
      reads this
    {
      && Ok() && i < |inodes| && |inodes| == |old(inodes)| && |disk| == |old(disk)|
      && OthersSame(old(disk), old(inodes), disk, inodes, i)
      && inodes[i] == old(inodes)[i].(addrs := inodes[i].addrs)
      && (forall b :: 0 <= b < |disk| && b < sb.bmapstart ==> disk[b] == old(disk)[b])
      && KeepsBlocks(old(disk), old(inodes)[i], disk, inodes[i])
      && Spliced(old(disk), old(inodes)[i], disk, inodes[i], o, chunk)
      && (NoFresh(old(own)) ==> NoFresh(own))
    }

    /** bmap leaves every byte of every file as it was: a missing block reads as the zeros of a fresh one. */
    method MapBlock(i: nat, bn: nat) returns (addr: nat)
      requires Ok() && i < |inodes| && bn < MAXFILE
      modifies this`disk, this`inodes, this`own, this`logged, this`writes
      ensures Wrote(i, 0, []) && addr == BlockOf(disk, inodes[i], bn)
      ensures addr == 0 ==> forall c :: 0 <= c < |own| ==> own[c] != Free
      ensures Charged(i, bn, addr)
    {
      OkIs();
      ghost var disk0, inodes0, own0 := disk, inodes, own;
      addr := Bmap(i, bn);
      OkIs();
      forall j | 0 <= j < |inodes| ensures SameBytes(disk0, inodes0[j], disk, inodes[j]) {
        MapKeepsBytes(sb, disk0, inodes0, own0, disk, inodes, own, i, bn, j);
      }
    }

    /** One turn of writei's loop: the block for `o`, and `chunk` copied into it. */
    method WriteChunk(i: nat, o: nat, bn: nat, at: nat, chunk: seq<Byte>, fits: bool) returns (addr: nat)
      requires Ok() && i < |inodes| && bn == BlockNo(o) && at == Offset(o) && bn < MAXFILE && at + |chunk| <= BSIZE
      modifies this`disk, this`inodes, this`own, this`logged, this`writes
      ensures Wrote(i, o, if addr != 0 && fits then chunk else [])
      ensures addr == BlockOf(disk, inodes[i], bn)
      ensures addr == 0 ==> forall c :: 0 <= c < |own| ==> own[c] != Free
      ensures Charged(i, bn, addr)
    {
      addr := MapBlock(i, bn);
      if addr == 0 || !fits {
        return;
      }
      OkIs();
      DataIs(sb, disk, inodes, own, i, bn);
      var bp := disk[addr];
      var data := bp[..at] + chunk + bp[at + |chunk|..];
      ChunkWritten(sb, disk, inodes, own, i, o, chunk, data);
      LogWrite(addr, data);
    }

    /** One turn of writei's loop: it goes on only if a block was found and the copy into it worked. */
    method WriteTurn(i: nat, off: nat, src: seq<Byte>, tot: nat, limit: nat, ghost disk0: ByteDisk,
                     ghost inodes0: seq<Inode>)
      returns (next: nat, more: bool, ghost addr: nat)
      requires Ok() && i < |inodes| && tot < |src| && off + |src| <= MAXSIZE
      requires Progress(sb, disk0, inodes0, disk, inodes, i, off, src[..tot])
      modifies this`disk, this`inodes, this`own, this`logged, this`writes
      ensures Ok() && tot < next <= |src| && Offset(off + tot) + (next - tot) <= BSIZE
      ensures i < |inodes| && (more ==> Progress(sb, disk0, inodes0, disk, inodes, i, off, src[..next]))
      ensures !more ==> Progress(sb, disk0, inodes0, disk, inodes, i, off, src[..tot])
      ensures !more ==> limit < |src| || forall c :: 0 <= c < |own| ==> own[c] != Free
      ensures next < |src| ==> Offset(off + next) == 0
      ensures Charged(i, BlockNo(off + tot), addr) && (NoFresh(old(own)) ==> NoFresh(own))
    {
      ghost var disk1, inodes1 := disk, inodes;
      var o := off + tot;
      var bn, at := BlockNo(o), Offset(o);
      var m := if |src| - tot < BSIZE - at then |src| - tot else BSIZE - at;
      next := tot + m;
      var fits := next <= limit;
      NextBlock(o, m, MAXFILE);
      var chunk := src[tot..next];
      var b := WriteChunk(i, o, bn, at, chunk, fits);
      addr, more := b, b != 0 && fits;
      ghost var done, all := if more then chunk else [], src[..if more then next else tot];
      assert all == src[..tot] + done;
      ProgressMore(sb, disk0, inodes0, disk1, inodes1, disk, inodes, i, off, src[..tot], o, done, all);
    }

    /** Where writei's loop is: `tot` bytes are in place, and no more is logged than the first `n` may need. */
    ghost predicate Going(j: Job, tot: nat, n: nat, maps: set<nat>, touched: set<nat>)
      reads this
    {
      && Ok() && NoFresh(own) && j.i < |inodes| && j.i < |j.inodes| && tot <= |j.src|
      && forall k: int {:trigger Asked(k)} :: Asked(k) ==>
           && Progress(sb, j.disk, j.inodes, disk, inodes, j.i, j.off, j.src[..tot])
           && Spent(sb, j.logged, logged, Ind(j.inodes[j.i]), Ind(inodes[j.i]), maps, touched, j.off, n)
           && (tot == 0 && n == 0 && Offset(j.off) != 0 ==> BlockOf(disk, inodes[j.i], BlockNo(j.off)) != 0)
    }

    lemma GoingIs(j: Job, tot: nat, n: nat, maps: set<nat>, touched: set<nat>)
      requires Going(j, tot, n, maps, touched)
      ensures Progress(sb, j.disk, j.inodes, disk, inodes, j.i, j.off, j.src[..tot])
      ensures Spent(sb, j.logged, logged, Ind(j.inodes[j.i]), Ind(inodes[j.i]), maps, touched, j.off, n)
      ensures tot == 0 && n == 0 && Offset(j.off) != 0 ==> BlockOf(disk, inodes[j.i], BlockNo(j.off)) != 0
    {
      assert Asked(0);
    }

    lemma GoesOn(j: Job, tot: nat, n: nat, maps: set<nat>, touched: set<nat>)
      requires Ok() && NoFresh(own) && j.i < |inodes| && j.i < |j.inodes| && tot <= |j.src| && n > 0
      requires Progress(sb, j.disk, j.inodes, disk, inodes, j.i, j.off, j.src[..tot])
      requires Spent(sb, j.logged, logged, Ind(j.inodes[j.i]), Ind(inodes[j.i]), maps, touched, j.off, n)
      ensures Going(j, tot, n, maps, touched)
    {
    }

    lemma SetsOut(j: Job)
      requires Ok() && NoFresh(own) && j.disk == disk && j.inodes == inodes && j.logged == logged
      requires j.i < |inodes| && NoHoles(disk, inodes[j.i]) && j.off <= inodes[j.i].size
      ensures Going(j, 0, 0, {}, {})
    {
      OkIs();
      JobStarts(sb, own, j);
    }

    /** The same turn, with what it may log. */
    method LoopTurn(i: nat, off: nat, src: seq<Byte>, tot: nat, limit: nat, ghost j: Job, ghost maps0: set<nat>,
                    ghost touched0: set<nat>)
      returns (next: nat, more: bool, ghost maps: set<nat>, ghost touched: set<nat>)
      requires tot < |src| && off + |src| <= MAXSIZE && j.i == i && j.off == off && j.src == src
      requires Going(j, tot, tot, maps0, touched0) && (tot == 0 || Offset(off + tot) == 0)
      modifies this`disk, this`inodes, this`own, this`logged, this`writes
      ensures tot < next <= |src| && (more ==> Going(j, next, next, maps, touched))
      ensures !more ==> Going(j, tot, |src|, maps, touched)
      ensures !more ==> limit < |src| || forall c :: 0 <= c < |own| ==> own[c] != Free
      ensures next < |src| ==> Offset(off + next) == 0
    {
      GoingIs(j, tot, tot, maps0, touched0);
      ghost var logged1, ind1, was := logged, Ind(inodes[i]), BlockOf(disk, inodes[i], BlockNo(off + tot));
      ghost var addr;
      next, more, addr := WriteTurn(i, off, src, tot, limit, j.disk, j.inodes);
      maps, touched := maps0 + BitOf(sb, was, addr), touched0 + One(addr);
      SpentMore(sb, j.logged, logged1, logged, Ind(j.inodes[i]), ind1, Ind(inodes[i]), maps0, touched0, off, tot, next,
                was, addr);
      if more {
        GoesOn(j, next, next, maps, touched);
      } else {
        SpentUpTo(sb, j.logged, logged, Ind(j.inodes[i]), Ind(inodes[i]), maps, touched, off, next, |src|);
        GoesOn(j, tot, |src|, maps, touched);
      }
    }

    /** writei's loop. */
    method WriteLoop(i: nat, off: nat, src: seq<Byte>, limit: nat)
      returns (tot: nat, ghost maps: set<nat>, ghost touched: set<nat>)
      requires Ok() && NoFresh(own) && i < |inodes| && off + |src| <= MAXSIZE && off <= inodes[i].size
               && NoHoles(disk, inodes[i])
      modifies this`disk, this`inodes, this`own, this`logged, this`writes
      ensures tot <= |src| && Going(Job(old(disk), old(inodes), old(logged), i, off, src), tot, |src|, maps, touched)
      ensures tot < |src| ==> limit < |src| || forall c :: 0 <= c < |own| ==> own[c] != Free
    {
      ghost var j := Job(disk, inodes, logged, i, off, src);
      SetsOut(j);
      maps, touched := {}, {};
      tot := 0;
      while tot < |src|
        invariant tot <= |src| && Going(j, tot, tot, maps, touched)
        invariant tot < |src| ==> tot == 0 || Offset(off + tot) == 0
      {
        var next, more;
        next, more, maps, touched := LoopTurn(i, off, src, tot, limit, j, maps, touched);
        if !more {
          return;
        }
        tot := next;
      }
      assert tot == |src|;
    }

    /**
     * writei: splice `src` into the file at `off`, growing it if need be. Copies from the caller fail
     * beyond `limit` bytes. Returns how many bytes were written, -1 when the range is not allowed.
     */
    method Writei(i: nat, off: nat, src: seq<Byte>, limit: nat)
      returns (r: int, ghost maps: set<nat>, ghost touched: set<nat>)
      requires Valid() && i < |inodes| && off < U32 && |src| < U32
      modifies this`disk, this`inodes, this`own, this`logged, this`writes
      ensures Valid() && |inodes| == |old(inodes)| && |disk| == |old(disk)|
      ensures r == -1 <==> off > old(inodes)[i].size || off + |src| >= U32 || off + |src| > MAXSIZE
      ensures r == -1 ==> disk == old(disk) && inodes == old(inodes) && own == old(own) && logged == old(logged)
                          && writes == old(writes)
      ensures r != -1 ==> 0 <= r <= |src| && Spliced(old(disk), old(inodes)[i], disk, inodes[i], off, src[..r])
      ensures r != -1 ==> inodes[i] == old(inodes)[i].(addrs := inodes[i].addrs,
                                                       size := Max(old(inodes)[i].size, off + r))
      ensures 0 <= r < |src| ==> limit < |src| || forall c :: 0 <= c < |own| ==> own[c] != Free
      ensures OthersSame(old(disk), old(inodes), disk, inodes, i)
      ensures r != -1 ==> |writes| > 0 && Spent(sb, old(logged), BlocksOf(writes[..|writes| - 1]), Ind(old(inodes)[i]),
                                                Ind(inodes[i]), maps, touched, off, |src|)
    {
      ValidIs();
      assert InodeOk(sb, disk, own, inodes[i], i, 0);
      if off > inodes[i].size || (off + |src|) % U32 < off {
        return -1, {}, {};
      }
      if (off + |src|) % U32 > MAXSIZE {
        return -1, {}, {};
      }
      ghost var disk0, inodes0 := disk, inodes;
      ghost var j := Job(disk, inodes, logged, i, off, src);
      r, maps, touched := WriteLoop(i, off, src, limit);
      GoingIs(j, r, |src|, maps, touched);
      OkIs();
      var size := if off + r > inodes[i].size then off + r else inodes[i].size;
      ghost var disk1, inodes1 := disk, inodes;
      SetSize(i, size);
      OkIs();
      WriteDone(sb, disk0, inodes0, disk1, inodes1, own, disk, inodes, i, off, src[..r]);
    }

    /** One transaction of filewrite: begin_op, writei of a chunk, end_op. It fits the log's allowance. */
    method WriteOp(i: nat, off: nat, part: seq<Byte>, limit: nat) returns (r: int)
      requires Valid() && i < |inodes| && off < U32 && |part| <= CHUNK
      modifies this
      ensures Valid() && -1 <= r <= |part| && Written(old(disk), old(inodes), disk, inodes, i, off, part[..Got(r)])
      ensures r == -1 <==> off > old(inodes)[i].size || off + |part| > MAXSIZE
      ensures r != -1 ==> off + r <= MAXSIZE
      ensures r == -1 ==> disk == old(disk) && inodes == old(inodes) && own == old(own)
      ensures 0 <= r < |part| ==> limit < |part| || forall c :: 0 <= c < |own| ==> own[c] != Free
      ensures start == old(disk) && (r == -1 ==> writes == [])
      ensures |BlocksOf(writes)| <= DiskTypes.MAXOPBLOCKS
      ensures |writes| > 0 ==> |BlocksOf(writes[..|writes| - 1])| < DiskTypes.MAXOPBLOCKS
    {
      start, writes, logged := disk, [], {};
      ghost var disk0, inodes0, ind0, maps, touched := disk, inodes, Ind(inodes[i]), {}, {};
      r, maps, touched := Writei(i, off, part, limit);
      if r == -1 {
        NothingWritten(disk, inodes, i, off);
        assert part[..Got(r)] == [];
      } else {
        LogCount(sb, BlocksOf(writes[..|writes| - 1]), ind0, Ind(inodes[i]), maps, touched, off, |part|);
        assert Written(disk0, inodes0, disk, inodes, i, off, part[..r]);
      }
    }

    /** One turn of filewrite's loop: `n1` more bytes of `src`, in one transaction. */
    method WriteNext(i: nat, off: nat, src: seq<Byte>, n: nat, n1: nat, limit: nat, ghost disk0: ByteDisk,
                     ghost inodes0: seq<Inode>)
      returns (r: int)
      requires Valid() && off + n < U32 && 0 < n1 <= CHUNK && n + n1 <= |src|
      requires Written(disk0, inodes0, disk, inodes, i, off, src[..n])
      modifies this
      ensures Valid() && -1 <= r <= n1 && (r != -1 ==> off + n + r <= MAXSIZE)
              && Written(disk0, inodes0, disk, inodes, i, off, src[..n + Got(r)])
      ensures r != n1 ==> off + n > inodes[i].size || off + |src| > MAXSIZE || limit < |src|
                          || forall c :: 0 <= c < |own| ==> own[c] != Free
    {
      ghost var disk1, inodes1 := disk, inodes;
      var part := src[n..n + n1];
      r := WriteOp(i, off + n, part, if limit > n then limit - n else 0);
      ghost var done, chunk, done' := src[..n], part[..Got(r)], src[..n + Got(r)];
      assert done' == done + chunk;
      WrittenMore(disk0, inodes0, disk1, inodes1, disk, inodes, i, off, done, chunk, done');
    }

    /** filewrite on an inode: the chunks of `src`, each its own transaction, until one falls short. */
    method FileWrite(i: nat, off: nat, src: seq<Byte>, limit: nat) returns (ret: int, end: nat, ghost k: nat)
      requires Valid() && i < |inodes| && off < U32 && |src| < U32
      modifies this
      ensures Valid() && k <= |src| && end == off + k && ret == if k == |src| then |src| else -1
      ensures Written(old(disk), old(inodes), disk, inodes, i, off, src[..k])
      ensures k < |src| ==> off + k > inodes[i].size || off + |src| > MAXSIZE || limit < |src|
                            || forall c :: 0 <= c < |own| ==> own[c] != Free
    {
      ghost var disk0, inodes0 := disk, inodes;
      NothingWritten(disk, inodes, i, off);
      assert src[..0] == [];
      var n := 0;
      end, k := off, 0;
      while n < |src|
        invariant 0 <= n <= |src| && k == n && end == off + n && end < U32
        invariant Valid() && Written(disk0, inodes0, disk, inodes, i, off, src[..n])
      {
        var n1 := if |src| - n > CHUNK then CHUNK else |src| - n;
        var r := WriteNext(i, off, src, n, n1, limit, disk0, inodes0);
        if r > 0 {
          end := end + r;
        }
        k := n + Got(r);
        if r != n1 {
          return -1, end, k;
        }
        n := n + r;
      }
      ret := |src|;
    }
  }

  /** The layout that mkfs gives a disk of 200000 blocks. */
  const BIGDISK: Super := Super(200000, 200, 33, 46, 71)

  /**
   * A file whose blocks are scattered over twelve bitmap blocks, on a disk with twenty-five: a good file system,
   * where truncating the file logs more blocks than one system call may.
   */
  method Scattered() returns (fs: FileSystem)
    ensures fresh(fs) && fs.Valid() && fs.sb == BIGDISK && 0 < |fs.inodes|
    ensures |MapsOf(fs.sb, fs.own, 0)| >= DiskTypes.MAXOPBLOCKS
  {
    fs := new FileSystem.Format(BIGDISK);
    fs.ValidIs();
    var k := 0;
    while k < NDIRECT
      invariant 0 <= k <= NDIRECT && fresh(fs) && fs.Ok() && fs.sb == BIGDISK && |fs.inodes| == 200
      invariant forall b :: 0 <= b < |fs.own| ==>
                  fs.own[b] == if b < 71 then Meta else if Spot(b, k) then Data(0, b / 8192 - 1) else Free
      invariant forall c :: 0 <= c < NDIRECT ==>
                  BlockOf(fs.disk, fs.inodes[0], c) == if c < k then 8192 * (c + 1) else 0
      invariant fs.inodes[0] == NoInode().(addrs := fs.inodes[0].addrs)
      invariant forall j {:trigger fs.inodes[j]} :: 0 < j < |fs.inodes| ==> fs.inodes[j] == NoInode()
      invariant forall j {:trigger fs.inodes[j]} :: 0 < j < |fs.inodes| ==> Stored(fs.sb, fs.disk, fs.inodes[j], j)
    {
      fs.TakeBlock(8192 * (k + 1));
      fs.StoreDirect(0, k, 8192 * (k + 1));
      k := k + 1;
    }
    ghost var disk0, ino := fs.disk, fs.inodes[0];
    fs.SetSize(0, 12288);
    forall bn | 0 <= bn && Start(bn) < 12288 ensures BlockOf(fs.disk, fs.inodes[0], bn) != 0 {
      assert bn < NDIRECT && BlockOf(disk0, ino, bn) == 8192 * (bn + 1);
    }
    ManyMaps(fs.own);
  }

  lemma ManyMaps(own: Owners)
    requires |own| == 200000 && forall b :: 71 <= b < |own| && Spot(b, NDIRECT) ==> own[b] == Data(0, b / 8192 - 1)
    ensures |MapsOf(BIGDISK, own, 0)| >= 12
  {
    var s := seq<nat>(12, c => 47 + c);
    var t: set<nat> := set c | 0 <= c < |s| :: s[c];
    Image(s, t);
    forall x | x in t ensures x in MapsOf(BIGDISK, own, 0) {
      var b := 8192 * (x - 46);
      assert Spot(b, NDIRECT) && own[b] == Data(0, b / 8192 - 1) && BitBlock(BIGDISK, b) == x;
    }
    SubsetSize(t, MapsOf(BIGDISK, own, 0));
  }

  /** The first block that each of bitmap blocks 1 to `k` stands for. */
  predicate Spot(b: nat, k: nat) { b % 8192 == 0 && 1 <= b / 8192 <= k }
}
