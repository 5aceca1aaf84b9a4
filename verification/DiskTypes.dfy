/**
 * Blocks, words and the layout constants shared by the buffer cache, the log
 * and the file system (kernel/param.h, kernel/fs.h).
 */
module DiskTypes {
  const MAXOPBLOCKS: nat := 10
  const LOGBLOCKS: nat := 30   // MAXOPBLOCKS * 3
  const BWORDS: nat := 256     // BSIZE / sizeof(uint)

  /** A C `uint`. */
  type Word = x: int | 0 <= x < 0x1_0000_0000

  /** A disk block seen as the array of words that the log header is. */
  type Block = b: seq<Word> | |b| == BWORDS witness seq(BWORDS, _ => 0)

  /** What a disk holds: one block per block number. */
  type Disk = seq<Block>
}
