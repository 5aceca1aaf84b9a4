/**
 * The file system on its blocks (kernel/fs.c, kernel/fs.h): free map, inodes, and who
 * owns each block. `own` gives every block one owner; FsOk ties the bitmap and the
 * inodes' block lists to it, in both directions.
 */
module FsModel {
  import opened Common
  import opened FsBytes

  const NDIRECT: nat := 12
  const NINDIRECT: nat := 256       // BSIZE / sizeof(uint)
  const MAXFILE: nat := 268         // NDIRECT + NINDIRECT
  const MAXSIZE: nat := 274432      // MAXFILE * BSIZE
  /** Inodes per block, and the words of each. */
  const IPB: nat := 16
  const IWORDS: nat := 16

  datatype Super = Super(size: nat, ninodes: nat, inodestart: nat, bmapstart: nat, datastart: nat)

  /** An inode: type and major, minor and nlink (a word each), size, block addresses. */
  datatype Inode = Inode(kind: nat, links: nat, size: nat, addrs: seq<nat>)

  type ByteDisk = seq<ByteBlock>

  datatype Owner =
    | Free
    | Meta                         // boot block, superblock, log, inodes, bitmap
    | Data(i: nat, bn: nat)        // block bn of inode i
    | Indirect(i: nat)             // the indirect block of inode i
    | Fresh                        // just allocated, not yet in an inode

  type Owners = seq<Owner>

  // ---------------------------------------------------------------- layout

  ghost predicate Layout(sb: Super) {
    && sb.size < U32 && 0 < sb.inodestart && sb.inodestart + sb.ninodes / IPB + 1 <= sb.bmapstart
    && sb.datastart == sb.bmapstart + MapNo(sb.size) + 1 && sb.datastart <= sb.size
  }

  /** BBLOCK and IBLOCK. */
  function BitBlock(sb: Super, b: nat): (r: nat) { sb.bmapstart + MapNo(b) }

  function InodeBlock(sb: Super, i: nat): (r: nat) { sb.inodestart + i / IPB }

  lemma BlocksInPlace(sb: Super, b: nat, i: nat)
    requires Layout(sb) && b < sb.size && i < sb.ninodes
    ensures sb.bmapstart <= BitBlock(sb, b) < sb.datastart && sb.inodestart <= InodeBlock(sb, i) < sb.bmapstart
  {
  }

  ghost predicate DiskOk(sb: Super, disk: ByteDisk) {
    |disk| == sb.size && forall b {:trigger disk[b]} :: 0 <= b < |disk| ==> |disk[b]| == BSIZE
  }

  /** Block b is marked in use in the free map. */
  predicate Marked(sb: Super, disk: ByteDisk, b: nat)
    requires Layout(sb) && DiskOk(sb, disk) && b < sb.size
  {
    Bit(disk[BitBlock(sb, b)], BitNo(b))
  }

  // ---------------------------------------------------------- the block map

  /** The disk block that holds block `bn` of a file, 0 when there is none. */
  function BlockOf(disk: ByteDisk, ino: Inode, bn: nat): (b: nat) {
    if |ino.addrs| != NDIRECT + 1 || bn >= MAXFILE then 0
    else if bn < NDIRECT then ino.addrs[bn]
    else
      var a := ino.addrs[NDIRECT];
      if a == 0 || a >= |disk| || |disk[a]| != BSIZE then 0 else Word(disk[a], bn - NDIRECT)
  }

  // -------------------------------------------------------------- ownership

  /** The free map marks exactly the blocks that have an owner. */
  ghost predicate BitsOk(sb: Super, disk: ByteDisk, own: Owners)
    requires Layout(sb) && DiskOk(sb, disk)
  {
    |own| == sb.size && forall b {:trigger own[b]} :: 0 <= b < sb.size ==> (Marked(sb, disk, b) <==> own[b] != Free)
  }

  /** What inode `i` names belongs to it; entries NDIRECT..lo of its block list are let off. */
  ghost predicate InodeOk(sb: Super, disk: ByteDisk, own: Owners, ino: Inode, i: nat, lo: nat) {
    && |ino.addrs| == NDIRECT + 1 && ino.size <= MAXSIZE && ino.kind < U32 && ino.links < U32
    && (forall k :: 0 <= k <= NDIRECT ==> ino.addrs[k] < |own|)
    && (ino.addrs[NDIRECT] != 0 ==> own[ino.addrs[NDIRECT]] == Indirect(i))
    && (forall bn {:trigger BlockOf(disk, ino, bn)} :: 0 <= bn < MAXFILE && !(NDIRECT <= bn < lo)
                                                       && BlockOf(disk, ino, bn) != 0 ==>
          BlockOf(disk, ino, bn) < |own| && own[BlockOf(disk, ino, bn)] == Data(i, bn))
  }

  /** Block `b` is where its owner says it is. */
  ghost predicate BlockOk(sb: Super, disk: ByteDisk, inodes: seq<Inode>, own: Owners, b: nat)
    requires b < |own|
  {
    match own[b]
    case Free => b >= sb.datastart
    case Meta => b < sb.datastart
    case Data(i, bn) => b >= sb.datastart && i < |inodes| && bn < MAXFILE && BlockOf(disk, inodes[i], bn) == b
    case Indirect(i) =>
      b >= sb.datastart && i < |inodes| && |inodes[i].addrs| == NDIRECT + 1 && inodes[i].addrs[NDIRECT] == b
    case Fresh => b >= sb.datastart
  }

  /** The whole invariant; `who` is being truncated and has dealt with its entries below `lo`. */
  ghost predicate TruncOk(sb: Super, disk: ByteDisk, inodes: seq<Inode>, own: Owners, who: nat, lo: nat) {
    && Layout(sb) && DiskOk(sb, disk) && BitsOk(sb, disk, own) && |inodes| == sb.ninodes
    && (forall b {:trigger BlockOk(sb, disk, inodes, own, b)} :: 0 <= b < sb.size ==> BlockOk(sb, disk, inodes, own, b))
    && (forall i {:trigger inodes[i]} :: 0 <= i < |inodes| ==>
        InodeOk(sb, disk, own, inodes[i], i, if i == who then lo else 0))
  }

  ghost predicate FsOk(sb: Super, disk: ByteDisk, inodes: seq<Inode>, own: Owners) {
    TruncOk(sb, disk, inodes, own, 0, 0)
  }

  /** No block is missing below the size. */
  ghost predicate NoHoles(disk: ByteDisk, ino: Inode) {
    forall bn {:trigger BlockOf(disk, ino, bn)} :: 0 <= bn && Start(bn) < ino.size ==> BlockOf(disk, ino, bn) != 0
  }

  /** Byte `a` of a file. */
  function FileByte(disk: ByteDisk, ino: Inode, a: nat): (x: Byte) {
    var b := BlockOf(disk, ino, BlockNo(a));
    if b != 0 && b < |disk| && |disk[b]| == BSIZE then disk[b][Offset(a)] else 0
  }

  /** The words of an inode as they are kept on disk. */
  function InodeWord(ino: Inode, k: nat): (w: nat) {
    if k == 0 then ino.kind else if k == 1 then ino.links else if k == 2 then ino.size
    else if k - 3 < |ino.addrs| then ino.addrs[k - 3] else 0
  }

  function Slot(i: nat): (w: nat)
    ensures w + IWORDS <= NWORDS
  {
    i % IPB * IWORDS
  }

  /** Inode `i` on disk is `ino`. */
  ghost predicate Stored(sb: Super, disk: ByteDisk, ino: Inode, i: nat)
    requires Layout(sb) && DiskOk(sb, disk) && i < sb.ninodes
  {
    forall k {:trigger InodeWord(ino, k)} :: 0 <= k < IWORDS ==>
          Word(disk[InodeBlock(sb, i)], Slot(i) + k) == InodeWord(ino, k)
  }

  // ------------------------------------------------------- free-map updates

  /** Flipping the bit of one block along with its owner keeps the free map right. */
  lemma FlipBit(sb: Super, disk: ByteDisk, own: Owners, b: nat, v: bool, o: Owner)
    requires Layout(sb) && DiskOk(sb, disk) && BitsOk(sb, disk, own) && b < sb.size && (v <==> o != Free)
    requires BitBlock(sb, b) < |disk|
    ensures var d := disk[BitBlock(sb, b) := SetBit(disk[BitBlock(sb, b)], BitNo(b), v)];
            DiskOk(sb, d) && BitsOk(sb, d, own[b := o])
  {
    var bb := BitBlock(sb, b);
    var d := disk[bb := SetBit(disk[bb], BitNo(b), v)];
    forall c | 0 <= c < sb.size ensures Marked(sb, d, c) <==> own[b := o][c] != Free {
      assert Marked(sb, disk, c) <==> own[c] != Free;
      BitSet(disk[bb], BitNo(b), v, BitNo(c));
      if c != b && BitBlock(sb, c) == bb { assert BitNo(c) != BitNo(b); }
    }
  }

  /** A write outside the bitmap leaves the free map alone. */
  lemma KeepBits(sb: Super, disk: ByteDisk, own: Owners, b: nat, data: ByteBlock)
    requires Layout(sb) && DiskOk(sb, disk) && BitsOk(sb, disk, own) && b < sb.size && |data| == BSIZE
    requires b < sb.bmapstart || b >= sb.datastart
    ensures DiskOk(sb, disk[b := data]) && BitsOk(sb, disk[b := data], own)
  {
  }

  /** The indirect block of an inode is not a bitmap, inode, data or free block. */
  lemma IndirectIs(sb: Super, disk: ByteDisk, inodes: seq<Inode>, own: Owners, who: nat, lo: nat, i: nat)
    requires TruncOk(sb, disk, inodes, own, who, lo) && i < |inodes|
    ensures var a := inodes[i].addrs; |a| == NDIRECT + 1
                                      && (a[NDIRECT] != 0 ==>
                                          a[NDIRECT] < |own| && own[a[NDIRECT]] == Indirect(i)
                                              && a[NDIRECT] >= sb.datastart)
  {
    var ino := inodes[i];
    assert InodeOk(sb, disk, own, ino, i, if i == who then lo else 0);
    if ino.addrs[NDIRECT] != 0 { assert BlockOk(sb, disk, inodes, own, ino.addrs[NDIRECT]); }
  }

  /** Writes to other blocks do not change where an inode's blocks are. */
  lemma SameBlocks(disk: ByteDisk, disk': ByteDisk, ino: Inode, bn: nat)
    requires |disk'| == |disk|
    requires |ino.addrs| == NDIRECT + 1 && (ino.addrs[NDIRECT] != 0 && ino.addrs[NDIRECT] < |disk| ==>
                                            disk'[ino.addrs[NDIRECT]] == disk[ino.addrs[NDIRECT]])
    ensures BlockOf(disk', ino, bn) == BlockOf(disk, ino, bn)
  {
  }

  // ------------------------------------------------------- allocating a block

  /**
   * Writes to blocks that are no inode's indirect block, and changes of owner that no inode sees, keep the invariant.
   */
  lemma KeepOk(sb: Super, disk: ByteDisk, inodes: seq<Inode>, own: Owners, disk': ByteDisk, own': Owners, who: nat,
               lo: nat)
    requires TruncOk(sb, disk, inodes, own, who, lo) && DiskOk(sb, disk') && |own'| == |own| && BitsOk(sb, disk', own')
    requires forall b :: 0 <= b < |disk| && own[b].Indirect? ==> disk'[b] == disk[b]
    requires forall b :: 0 <= b < |own| && (own[b].Indirect? || own[b].Data? || own[b].Meta?) ==> own'[b] == own[b]
    requires forall b :: 0 <= b < |own| && (own[b].Free? || own[b].Fresh?) ==> own'[b].Free? || own'[b].Fresh?
    ensures TruncOk(sb, disk', inodes, own', who, lo)
    ensures forall i, bn :: 0 <= i < |inodes| && 0 <= bn ==>
              BlockOf(disk', inodes[i], bn) == BlockOf(disk, inodes[i], bn)
  {
    forall i, bn | 0 <= i < |inodes| && 0 <= bn ensures BlockOf(disk', inodes[i], bn) == BlockOf(disk, inodes[i], bn) {
      IndirectIs(sb, disk, inodes, own, who, lo, i);
      SameBlocks(disk, disk', inodes[i], bn);
    }
    forall b | 0 <= b < sb.size ensures BlockOk(sb, disk', inodes, own', b) {
      assert BlockOk(sb, disk, inodes, own, b);
    }
    forall i | 0 <= i < |inodes| ensures InodeOk(sb, disk', own', inodes[i], i, if i == who then lo else 0) {
      assert InodeOk(sb, disk, own, inodes[i], i, if i == who then lo else 0);
    }
  }

  /** Every file's blocks are where they were, except block `bn` of inode `i`. */
  ghost predicate SameBlocksBut(disk: ByteDisk, inodes: seq<Inode>, disk': ByteDisk, inodes': seq<Inode>, i: nat,
                                bn: nat)
  {
    && |inodes'| == |inodes|
    && (forall j, c: nat :: 0 <= j < |inodes| && !(j == i && c == bn) ==>
          BlockOf(disk', inodes'[j], c) == BlockOf(disk, inodes[j], c))
  }

  /** One direct address changes, and bitmap blocks may: one block of one file is another. */
  lemma DirectMaps(disk: ByteDisk, inodes: seq<Inode>, disk': ByteDisk, i: nat, bn: nat, b: nat)
    requires i < |inodes| && bn < NDIRECT && |inodes[i].addrs| == NDIRECT + 1 && |disk'| == |disk|
    requires forall j :: 0 <= j < |inodes| && |inodes[j].addrs| == NDIRECT + 1
                         && 0 < inodes[j].addrs[NDIRECT] < |disk| ==>
               disk'[inodes[j].addrs[NDIRECT]] == disk[inodes[j].addrs[NDIRECT]]
    ensures var inodes' := inodes[i := inodes[i].(addrs := inodes[i].addrs[bn := b])];
            BlockOf(disk', inodes'[i], bn) == b && SameBlocksBut(disk, inodes, disk', inodes', i, bn)
  {
  }

  /** bmap stores a new block in the inode itself. */
  lemma LinkDirect(sb: Super, disk: ByteDisk, inodes: seq<Inode>, own: Owners, i: nat, bn: nat, b: nat)
    requires FsOk(sb, disk, inodes, own) && i < |inodes| && bn < NDIRECT && BlockOf(disk, inodes[i], bn) == 0
    requires 0 < b < |own| && own[b] == Fresh && |inodes[i].addrs| == NDIRECT + 1
    ensures var inodes' := inodes[i := inodes[i].(addrs := inodes[i].addrs[bn := b])];
            && FsOk(sb, disk, inodes', own[b := Data(i, bn)])
            && BlockOf(disk, inodes'[i], bn) == b && SameBlocksBut(disk, inodes, disk, inodes', i, bn)
  {
    var inodes' := inodes[i := inodes[i].(addrs := inodes[i].addrs[bn := b])];
    var own' := own[b := Data(i, bn)];
    assert InodeOk(sb, disk, own, inodes[i], i, 0);
    DirectMaps(disk, inodes, disk, i, bn, b);
    forall c | 0 <= c < sb.size ensures BlockOk(sb, disk, inodes', own', c) {
      assert BlockOk(sb, disk, inodes, own, c);
    }
    forall j | 0 <= j < |inodes| ensures InodeOk(sb, disk, own', inodes'[j], j, 0) {
      assert InodeOk(sb, disk, own, inodes[j], j, 0);
    }
    forall c | 0 <= c < sb.size ensures Marked(sb, disk, c) <==> own'[c] != Free {
      assert Marked(sb, disk, c) <==> own[c] != Free;
    }
  }

  /** bmap gives the inode an indirect block, whose words are all zero. */
  lemma LinkIndirect(sb: Super, disk: ByteDisk, inodes: seq<Inode>, own: Owners, i: nat, b: nat)
    requires FsOk(sb, disk, inodes, own) && i < |inodes| && |inodes[i].addrs| == NDIRECT + 1
             && inodes[i].addrs[NDIRECT] == 0
    requires 0 < b < |own| && own[b] == Fresh && b < |disk| && |disk[b]| == BSIZE
    requires forall k: nat :: k < NINDIRECT ==> Word(disk[b], k) == 0
    ensures var inodes' := inodes[i := inodes[i].(addrs := inodes[i].addrs[NDIRECT := b])];
            && FsOk(sb, disk, inodes', own[b := Indirect(i)])
            && (forall j, c: nat :: 0 <= j < |inodes| ==> BlockOf(disk, inodes'[j], c) == BlockOf(disk, inodes[j], c))
  {
    var inodes' := inodes[i := inodes[i].(addrs := inodes[i].addrs[NDIRECT := b])];
    var own' := own[b := Indirect(i)];
    assert InodeOk(sb, disk, own, inodes[i], i, 0);
    forall j, c: nat | 0 <= j < |inodes| ensures BlockOf(disk, inodes'[j], c) == BlockOf(disk, inodes[j], c) {}
    forall c | 0 <= c < sb.size ensures BlockOk(sb, disk, inodes', own', c) {
      assert BlockOk(sb, disk, inodes, own, c);
    }
    forall j | 0 <= j < |inodes| ensures InodeOk(sb, disk, own', inodes'[j], j, 0) {
      assert InodeOk(sb, disk, own, inodes[j], j, 0);
    }
    forall c | 0 <= c < sb.size ensures Marked(sb, disk, c) <==> own'[c] != Free {
      assert Marked(sb, disk, c) <==> own[c] != Free;
    }
  }

  /** Storing one word of an indirect block changes one block of one file. */
  lemma StoreMaps(sb: Super, disk: ByteDisk, inodes: seq<Inode>, own: Owners, i: nat, bn: nat, b: nat)
    requires FsOk(sb, disk, inodes, own) && i < |inodes| && NDIRECT <= bn < MAXFILE && b < U32
    requires |inodes[i].addrs| == NDIRECT + 1 && 0 != inodes[i].addrs[NDIRECT] < |disk|
             && |disk[inodes[i].addrs[NDIRECT]]| == BSIZE
    ensures var a := inodes[i].addrs[NDIRECT];
            var disk' := disk[a := SetWord(disk[a], bn - NDIRECT, b)];
            BlockOf(disk', inodes[i], bn) == b && SameBlocksBut(disk, inodes, disk', inodes, i, bn)
  {
    var a := inodes[i].addrs[NDIRECT];
    var disk' := disk[a := SetWord(disk[a], bn - NDIRECT, b)];
    WordSet(disk[a], bn - NDIRECT, b, bn - NDIRECT);
    forall j, c: nat | 0 <= j < |inodes| && !(j == i && c == bn)
      ensures BlockOf(disk', inodes[j], c) == BlockOf(disk, inodes[j], c)
    {
      IndirectIs(sb, disk, inodes, own, 0, 0, j);
      IndirectIs(sb, disk, inodes, own, 0, 0, i);
      if j == i && NDIRECT <= c < MAXFILE { WordSet(disk[a], bn - NDIRECT, b, c - NDIRECT); }
    }
  }

  /** bmap stores a new block in the indirect block. */
  lemma LinkEntry(sb: Super, disk: ByteDisk, inodes: seq<Inode>, own: Owners, i: nat, bn: nat, b: nat)
    requires FsOk(sb, disk, inodes, own) && i < |inodes| && NDIRECT <= bn < MAXFILE && BlockOf(disk, inodes[i], bn) == 0
    requires 0 < b < |own| && own[b] == Fresh
    requires |inodes[i].addrs| == NDIRECT + 1 && 0 != inodes[i].addrs[NDIRECT] < |disk|
             && |disk[inodes[i].addrs[NDIRECT]]| == BSIZE
    ensures b < U32
    ensures var a := inodes[i].addrs[NDIRECT];
            var disk' := disk[a := SetWord(disk[a], bn - NDIRECT, b)];
            && FsOk(sb, disk', inodes, own[b := Data(i, bn)])
            && BlockOf(disk', inodes[i], bn) == b && SameBlocksBut(disk, inodes, disk', inodes, i, bn)
  {
    var a := inodes[i].addrs[NDIRECT];
    var disk' := disk[a := SetWord(disk[a], bn - NDIRECT, b)];
    var own' := own[b := Data(i, bn)];
    IndirectIs(sb, disk, inodes, own, 0, 0, i);
    StoreMaps(sb, disk, inodes, own, i, bn, b);
    KeepBits(sb, disk, own, a, SetWord(disk[a], bn - NDIRECT, b));
    forall c | 0 <= c < sb.size ensures BlockOk(sb, disk', inodes, own', c) {
      assert BlockOk(sb, disk, inodes, own, c);
    }
    forall j | 0 <= j < |inodes| ensures InodeOk(sb, disk', own', inodes[j], j, 0) {
      assert InodeOk(sb, disk, own, inodes[j], j, 0);
    }
    forall c | 0 <= c < sb.size ensures Marked(sb, disk', c) <==> own'[c] != Free {
      assert Marked(sb, disk', c) <==> own[c] != Free;
    }
  }

  // --------------------------------------------------------------- truncation

  /** itrunc frees a direct block and clears its address. */
  lemma UnlinkDirect(sb: Super, disk: ByteDisk, inodes: seq<Inode>, own: Owners, disk': ByteDisk, i: nat, bn: nat)
    requires FsOk(sb, disk, inodes, own) && i < |inodes| && bn < NDIRECT && |inodes[i].addrs| == NDIRECT + 1
    requires var b := inodes[i].addrs[bn]; 0 < b < |own| && DiskOk(sb, disk') && BitsOk(sb, disk', own[b := Free])
    requires forall c :: 0 <= c < |disk| && own[c].Indirect? ==> disk'[c] == disk[c]
    ensures var b := inodes[i].addrs[bn];
            var inodes' := inodes[i := inodes[i].(addrs := inodes[i].addrs[bn := 0])];
            && FsOk(sb, disk', inodes', own[b := Free]) && SameBlocksBut(disk, inodes, disk', inodes', i, bn)
  {
    var b := inodes[i].addrs[bn];
    var inodes' := inodes[i := inodes[i].(addrs := inodes[i].addrs[bn := 0])];
    var own' := own[b := Free];
    assert InodeOk(sb, disk, own, inodes[i], i, 0);
    assert BlockOf(disk, inodes[i], bn) == b;
    forall j | 0 <= j < |inodes| && |inodes[j].addrs| == NDIRECT + 1 && 0 < inodes[j].addrs[NDIRECT] < |disk|
      ensures disk'[inodes[j].addrs[NDIRECT]] == disk[inodes[j].addrs[NDIRECT]]
    {
      IndirectIs(sb, disk, inodes, own, 0, 0, j);
    }
    DirectMaps(disk, inodes, disk', i, bn, 0);
    forall c | 0 <= c < sb.size ensures BlockOk(sb, disk', inodes', own', c) {
      assert BlockOk(sb, disk, inodes, own, c);
    }
    forall j | 0 <= j < |inodes| ensures InodeOk(sb, disk', own', inodes'[j], j, 0) {
      assert InodeOk(sb, disk, own, inodes[j], j, 0);
    }
  }

  /** itrunc frees a block named in the indirect block, which keeps the stale word for now. */
  lemma UnlinkEntry(sb: Super, disk: ByteDisk, inodes: seq<Inode>, own: Owners, disk': ByteDisk, i: nat, lo: nat)
    requires TruncOk(sb, disk, inodes, own, i, lo) && i < |inodes| && NDIRECT <= lo < MAXFILE
    requires var b := BlockOf(disk, inodes[i], lo); 0 < b < |own| && DiskOk(sb, disk')
                                                    && BitsOk(sb, disk', own[b := Free])
    requires forall c :: 0 <= c < |disk| && own[c].Indirect? ==> disk'[c] == disk[c]
    ensures TruncOk(sb, disk', inodes, own[BlockOf(disk, inodes[i], lo) := Free], i, lo + 1)
    ensures forall j, c: nat :: 0 <= j < |inodes| ==> BlockOf(disk', inodes[j], c) == BlockOf(disk, inodes[j], c)
  {
    var b := BlockOf(disk, inodes[i], lo);
    var own' := own[b := Free];
    assert InodeOk(sb, disk, own, inodes[i], i, lo);
    forall j, c: nat | 0 <= j < |inodes| ensures BlockOf(disk', inodes[j], c) == BlockOf(disk, inodes[j], c) {
      IndirectIs(sb, disk, inodes, own, i, lo, j);
    }
    forall c | 0 <= c < sb.size ensures BlockOk(sb, disk', inodes, own', c) {
      assert BlockOk(sb, disk, inodes, own, c);
    }
    forall j | 0 <= j < |inodes| ensures InodeOk(sb, disk', own', inodes[j], j, if j == i then lo + 1 else 0) {
      assert InodeOk(sb, disk, own, inodes[j], j, if j == i then lo else 0);
    }
  }

  /** Last, itrunc frees the indirect block itself. */
  lemma UnlinkIndirect(sb: Super, disk: ByteDisk, inodes: seq<Inode>, own: Owners, disk': ByteDisk, i: nat)
    requires TruncOk(sb, disk, inodes, own, i, MAXFILE) && i < |inodes| && |inodes[i].addrs| == NDIRECT + 1
    requires var b := inodes[i].addrs[NDIRECT]; 0 < b < |own| && DiskOk(sb, disk') && BitsOk(sb, disk', own[b := Free])
    requires forall c :: 0 <= c < |disk| && own[c].Indirect? ==> disk'[c] == disk[c]
    requires forall b :: 0 <= b < |own| && own[b].Data? && own[b].i == i ==> own[b].bn < NDIRECT
    ensures var b := inodes[i].addrs[NDIRECT];
            var inodes' := inodes[i := inodes[i].(addrs := inodes[i].addrs[NDIRECT := 0])];
            && FsOk(sb, disk', inodes', own[b := Free])
            && (forall j, c: nat :: 0 <= j < |inodes| && j != i ==>
                BlockOf(disk', inodes'[j], c) == BlockOf(disk, inodes[j], c))
            && (forall c: nat ::
                  BlockOf(disk', inodes'[i], c) == if c < NDIRECT then BlockOf(disk, inodes[i], c) else 0)
  {
    var b := inodes[i].addrs[NDIRECT];
    var inodes' := inodes[i := inodes[i].(addrs := inodes[i].addrs[NDIRECT := 0])];
    var own' := own[b := Free];
    IndirectIs(sb, disk, inodes, own, i, MAXFILE, i);
    assert InodeOk(sb, disk, own, inodes[i], i, MAXFILE);
    forall j, c: nat | 0 <= j < |inodes| && j != i ensures BlockOf(disk', inodes'[j], c) == BlockOf(disk, inodes[j], c)
    {
      IndirectIs(sb, disk, inodes, own, i, MAXFILE, j);
    }
    forall c | 0 <= c < sb.size ensures BlockOk(sb, disk', inodes', own', c) {
      assert BlockOk(sb, disk, inodes, own, c);
    }
    forall j | 0 <= j < |inodes| ensures InodeOk(sb, disk', own', inodes'[j], j, 0) {
      assert InodeOk(sb, disk, own, inodes[j], j, if j == i then MAXFILE else 0);
    }
  }
}
