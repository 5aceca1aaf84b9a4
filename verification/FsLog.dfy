/**
 * File writes through the log (kernel/fs.c, kernel/file.c over kernel/log.c): each transaction's log_writes go
 * to the log, and whatever the disk holds at a crash, recovery gives the file system as some transaction left it.
 */
module FsLog {
  import opened Common
  import opened DiskTypes
  import Sets
  import opened FsBytes
  import opened FsModel
  import opened Fs
  import LM = LogModel
  import LR = LogRuns
  import L = Log
  import Bio

  /** A block as the log sees it. */
  function Words(b: ByteBlock): (r: Block)
    requires |b| == BSIZE
  {
    seq(256, i requires 0 <= i < 256 => FsBytes.Word(b, i))
  }

  /** Byte `k` of a word. */
  function ByteOf(w: Word, k: nat): (x: Byte)
    requires k < 4
  {
    if k == 0 then w % 0x100 else if k == 1 then w / 0x100 % 0x100
    else if k == 2 then w / 0x1_0000 % 0x100 else w / 0x100_0000
  }

  /** The block that the log sees as `b`. */
  function Bytes(b: Block): (r: ByteBlock)
    ensures |r| == BSIZE
  {
    seq(1024, i requires 0 <= i < 1024 => ByteOf(b[i / 4], i % 4))
  }

  lemma WordsOfBytes(b: Block)
    ensures Words(Bytes(b)) == b
  {
    forall i | 0 <= i < 256 ensures FsBytes.Word(Bytes(b), i) == b[i] {
      assert 4 * i / 4 == i && (4 * i + 1) / 4 == i && (4 * i + 2) / 4 == i && (4 * i + 3) / 4 == i;
      BytesOfWord(b[i]);
    }
  }

  /** The words of a block determine it. */
  lemma SameWords(x: ByteBlock, y: ByteBlock)
    requires |x| == BSIZE == |y| && Words(x) == Words(y)
    ensures x == y
  {
    forall i | 0 <= i < 1024 ensures x[i] == y[i] {
      var k := i / 4;
      SameFour(x, y, k);
      assert i == 4 * k || i == 4 * k + 1 || i == 4 * k + 2 || i == 4 * k + 3;
    }
  }

  lemma SameFour(x: ByteBlock, y: ByteBlock, i: nat)
    requires |x| == BSIZE == |y| && Words(x) == Words(y) && i < 256
    ensures x[4 * i] == y[4 * i] && x[4 * i + 1] == y[4 * i + 1] && x[4 * i + 2] == y[4 * i + 2]
            && x[4 * i + 3] == y[4 * i + 3]
  {
    assert Words(x)[i] == Words(y)[i];
    assert FsBytes.Word(x, i) == FsBytes.Word(y, i);
    SameDigits(x[4 * i], x[4 * i + 1], x[4 * i + 2], x[4 * i + 3], y[4 * i], y[4 * i + 1], y[4 * i + 2], y[4 * i + 3]);
  }

  lemma SameDigits(a: Byte, b: Byte, c: Byte, d: Byte, e: Byte, f: Byte, g: Byte, h: Byte)
    requires a as int + 0x100 * (b as int) + 0x1_0000 * (c as int) + 0x100_0000 * (d as int)
             == e as int + 0x100 * (f as int) + 0x1_0000 * (g as int) + 0x100_0000 * (h as int)
    ensures a == e && b == f && c == g && d == h
  {
  }

  function AllBytes(e: Disk): (d: ByteDisk)
    ensures |d| == |e|
  {
    seq(|e|, b requires 0 <= b < |e| => Bytes(e[b]))
  }

  function AllWords(d: ByteDisk): (e: Disk)
    requires Sized(d)
    ensures |e| == |d|
  {
    seq(|d|, b requires 0 <= b < |d| => Words(d[b]))
  }

  /** What a disk holds for the file system is there in its bytes. */
  lemma HeldBytes(g: LM.Layout, e: Disk, d: ByteDisk)
    requires Holds(g, e, d)
    ensures Holds(g, e, AllBytes(e)) && forall b :: g.Home(b) ==> AllBytes(e)[b] == d[b]
  {
    forall b | 0 <= b < |e| ensures Words(Bytes(e[b])) == e[b] { WordsOfBytes(e[b]); }
    forall b | g.Home(b) ensures AllBytes(e)[b] == d[b] {
      SameWords(Bytes(e[b]), d[b]);
    }
  }

  predicate Sized(d: ByteDisk) {
    forall b {:trigger d[b]} :: 0 <= b < |d| ==> |d[b]| == BSIZE
  }

  /** The blocks of `e` that are not the log's are those of `d`. */
  ghost predicate Holds(g: LM.Layout, e: Disk, d: ByteDisk) {
    && |e| == g.size == |d| && Sized(d)
    && (forall b {:trigger e[b]} {:trigger d[b]} :: g.Home(b) ==> e[b] == Words(d[b]))
  }

  /** log_writes as the log records them for system call `id`. */
  function Logged(id: nat, ws: seq<Store>): (r: seq<LM.Write>)
    requires forall k :: 0 <= k < |ws| ==> |ws[k].data| == BSIZE && ws[k].b < 0x1_0000_0000
    ensures |r| == |ws|
  {
    seq(|ws|, k requires 0 <= k < |ws| => LM.Write(id, ws[k].b, Words(ws[k].data)))
  }

  ghost predicate Loggable(g: LM.Layout, ws: seq<Store>) {
    forall k {:trigger ws[k]} :: 0 <= k < |ws| ==> |ws[k].data| == BSIZE && ws[k].b < 0x1_0000_0000 && g.Home(ws[k].b)
  }

  /** Replaying the log's record of a transaction replays the transaction. */
  lemma {:induction false} ReplayIs(g: LM.Layout, e: Disk, d: ByteDisk, id: nat, ws: seq<Store>)
    requires Holds(g, e, d) && Loggable(g, ws)
    ensures LM.WritesOk(g, Logged(id, ws))
    ensures Holds(g, LM.ApplyWrites(g, e, Logged(id, ws)), Replay(d, ws))
    decreases |ws|
  {
    if ws != [] {
      var init, last := ws[..|ws| - 1], ws[|ws| - 1];
      var all := Logged(id, ws);
      assert all[..|all| - 1] == Logged(id, init);
      ReplayIs(g, e, d, id, init);
    }
  }

  /** The commit groups so far lead from the first image to the next, one by one. */
  ghost predicate Chronicle(g: LM.Layout, base: Disk, groups: seq<seq<LM.Write>>, past: seq<Picture>) {
    && |groups| < |past| && |base| == g.size && LM.GroupsOk(g, groups)
    && (forall k {:trigger past[k]} :: 0 <= k <= |groups| ==>
          Holds(g, LM.ApplyGroups(g, base, groups[..k]), past[k].disk))
  }

  lemma ChronicleMore(g: LM.Layout, base: Disk, groups: seq<seq<LM.Write>>, past: seq<Picture>, id: nat, ws: seq<Store>,
                      x: Picture)
    requires Chronicle(g, base, groups, past) && |past| == |groups| + 1
    requires Loggable(g, ws) && x.disk == Replay(past[|groups|].disk, ws)
    ensures Chronicle(g, base, groups + [Logged(id, ws)], past + [x])
  {
    var n, groups', past' := |groups|, groups + [Logged(id, ws)], past + [x];
    assert groups[..n] == groups && groups'[..n + 1] == groups' && groups'[..n] == groups;
    ReplayIs(g, LM.ApplyGroups(g, base, groups), past[n].disk, id, ws);
    forall k | 0 <= k <= n + 1 ensures Holds(g, LM.ApplyGroups(g, base, groups'[..k]), past'[k].disk) {
      if k <= n {
        assert groups'[..k] == groups[..k] && past'[k] == past[k];
      }
    }
  }

  /** The blocks of the first writes are among those of them all. */
  lemma {:induction false} BlocksGrow(ws: seq<Store>, k: nat, n: nat)
    requires k <= n <= |ws|
    ensures BlocksOf(ws[..k]) <= BlocksOf(ws[..n])
    decreases n
  {
    if k < n {
      BlocksGrow(ws, k, n - 1);
      assert ws[..n][..n - 1] == ws[..n - 1];
    }
  }

  lemma {:induction false} BlocksSmall(g: LM.Layout, ws: seq<Store>)
    requires Loggable(g, ws)
    ensures forall b :: b in BlocksOf(ws) ==> b < 0x1_0000_0000
  {
    if ws != [] { BlocksSmall(g, ws[..|ws| - 1]); }
  }

  lemma LogSize(lh: seq<Word>, s: set<nat>)
    requires L.NoDup(lh) && forall b: Word {:trigger b in lh} :: b in lh <==> b in s
    requires forall b :: b in s ==> b < 0x1_0000_0000
    ensures |lh| == |s|
  {
    var t: set<nat> := set i | 0 <= i < |lh| :: lh[i];
    Sets.Image(lh, t);
    forall b | b in s ensures b in t {
      var w: Word := b;
      assert w in lh;
    }
    forall b | b in t ensures b in s {
      var w: Word := b;
      assert w in lh;
    }
    assert s == t;
  }

  /** No write of the transaction is made with its log allowance used up. */
  ghost predicate InBudget(ws: seq<Store>) {
    |ws| > 0 ==> |BlocksOf(ws[..|ws| - 1])| < MAXOPBLOCKS
  }

  /** The log has taken the first `k` writes: its entries are their blocks, each once and each charged to the caller. */
  ghost predicate Sent(g: LM.Layout, id: nat, ws: seq<Store>, k: nat, s: LM.State)
    requires Loggable(g, ws) && k <= |ws|
  {
    && s.phase.Running? && s.open == Logged(id, ws[..k]) && s.active == [LM.Op(id, |s.lh|)] && L.NoDup(s.lh)
    && (forall b: Word {:trigger b in s.lh} :: b in s.lh <==> b in BlocksOf(ws[..k]))
  }

  lemma SentMore(g: LM.Layout, id: nat, ws: seq<Store>, k: nat, s: LM.State)
    requires Loggable(g, ws) && k < |ws| && Sent(g, id, ws, k, s) && ws[k].b < |s.view|
    ensures Sent(g, id, ws, k + 1, L.AfterLogWrite(s, 0, ws[k].b, Words(ws[k].data)))
  {
    assert ws[..k + 1][..k] == ws[..k];
    assert Logged(id, ws[..k + 1]) == Logged(id, ws[..k]) + [LM.Write(id, ws[k].b, Words(ws[k].data))];
  }

  /** At event `q`, when the disk had had `n` contents, `t` commit groups had been acknowledged. */
  ghost predicate AckedAt(g: LM.Layout, d: Disk, es: seq<LM.Event>, q: nat, n: nat, t: nat)
    requires LM.DiskOk(g, d)
  {
    && q <= |es| && n == LR.Writes(g, d, es, q) > 0
    && LR.Exec(g, d, es[..q]).At? && LR.Exec(g, d, es[..q]).state.returned >= t
  }

  /** Transaction `t` had returned when the disk had had `acks[t]` contents. */
  ghost predicate Acked(g: LM.Layout, d: Disk, es: seq<LM.Event>, marks: seq<nat>, acks: seq<nat>) {
    && |marks| == |acks| && LM.DiskOk(g, d)
    && forall k: int {:trigger Asked(k)} :: Asked(k) ==>
         forall t {:trigger acks[t]} :: 0 <= t < |acks| ==> AckedAt(g, d, es, marks[t], acks[t], t)
  }

  lemma AckedIs(g: LM.Layout, d: Disk, es: seq<LM.Event>, marks: seq<nat>, acks: seq<nat>, t: nat)
    requires Acked(g, d, es, marks, acks) && t < |acks|
    ensures AckedAt(g, d, es, marks[t], acks[t], t)
  {
    assert Asked(0);
    assert acks[t] == acks[t];
  }

  lemma AckedStart(g: LM.Layout, d: Disk, es: seq<LM.Event>)
    requires LM.DiskOk(g, d)
    ensures Acked(g, d, es, [0], [1])
  {
    assert es[..0] == [];
    assert LR.Exec(g, d, []) == LR.At(LM.Init(g, d));
    assert AckedAt(g, d, es, 0, 1, 0);
  }

  lemma AckedStays(g: LM.Layout, d: Disk, es: seq<LM.Event>, es': seq<LM.Event>, marks: seq<nat>, acks: seq<nat>)
    requires Acked(g, d, es, marks, acks) && es <= es'
    ensures Acked(g, d, es', marks, acks)
  {
    forall t | 0 <= t < |acks| ensures AckedAt(g, d, es', marks[t], acks[t], t) {
      AckedIs(g, d, es, marks, acks, t);
      assert es'[..marks[t]] == es[..marks[t]];
    }
  }

  lemma AckedMore(g: LM.Layout, d: Disk, es: seq<LM.Event>, marks: seq<nat>, acks: seq<nat>, s: LM.State)
    requires Acked(g, d, es, marks, acks) && LR.Ends(g, d, es, s) && s.returned >= |acks|
    ensures Acked(g, d, es, marks + [|es|], acks + [|s.trace|])
  {
    assert Asked(0);
    LR.TraceEnds(g, d, es, s);
    assert es[..|es|] == es;
    var marks', acks' := marks + [|es|], acks + [|s.trace|];
    forall t | 0 <= t < |acks'| ensures AckedAt(g, d, es, marks'[t], acks'[t], t) {
      if t < |acks| { AckedIs(g, d, es, marks, acks, t); }
    }
  }

  class Machine {
    const fs: FileSystem
    const log: L.Log
    ghost var past: seq<Picture>   // what each transaction left; first, what was booted
    ghost var acks: seq<nat>       // how many contents the disk had had when each returned
    ghost var marks: seq<nat>      // how many events of the log there had been

    ghost function Now(): (x: Picture)
      reads fs
    {
      Picture(fs.disk, fs.inodes, fs.own)
    }

    /** Every commit group is one file-system transaction, and every image so far was good. */
    ghost predicate Kept()
      reads this, log, log.bc
    {
      && log.OnTrack() && log.g.size == fs.sb.size && log.g.start + 1 + LOGBLOCKS <= fs.sb.inodestart
      && Chronicle(log.g, LM.Recover(log.g, log.first), log.m.groups, past)
      && (forall k {:trigger past[k]} :: 0 <= k < |past| ==> Good(fs.sb, past[k]))
      && |acks| == |past| && Acked(log.g, log.first, log.events, marks, acks)
    }

    /** Between transactions. Twelve buffers are enough. */
    ghost predicate Inv()
      reads this, fs, log, log.bc, log.bc.buf, log.bc.next, log.bc.prev
    {
      && Kept() && fs.Valid() && log.Valid(0) && log.m.phase.Running? && log.outstanding == 0 && log.lh == []
      && |past| == |log.m.groups| + 1 && past[|log.m.groups|] == Now() && log.bc.buf.Length >= MAXOPBLOCKS + 2
      && log.m.open == [] && acks[|acks| - 1] <= |log.bc.trace|
    }

    /** The disk as it is comes last. */
    lemma Latest()
      requires log.OnTrack()
      ensures |log.bc.trace| > 0 && log.bc.trace[|log.bc.trace| - 1] == log.bc.disk
    {
      assert Sought(0);
      LR.TraceEnds(log.g, log.first, log.events, log.m);
    }

    /** After boot and recovery: the file system is what the disk holds. */
    constructor (fs: FileSystem, log: L.Log)
      requires fs.Valid() && log.Valid(0) && log.m.phase.Running? && log.outstanding == 0 && log.lh == []
      requires log.m.groups == [] && log.m.open == [] && log.bc.buf.Length >= MAXOPBLOCKS + 2
      requires log.g.size == fs.sb.size && log.g.start + 1 + LOGBLOCKS <= fs.sb.inodestart
      requires LM.DiskOk(log.g, log.first) && Holds(log.g, LM.Recover(log.g, log.first), fs.disk)
      ensures this.fs == fs && this.log == log && Inv() && past == [Now()]
    {
      this.fs, this.log := fs, log;
      past, acks, marks := [Picture(fs.disk, fs.inodes, fs.own)], [1], [0];
      new;
      fs.ValidIs();
      AckedStart(log.g, log.first, log.events);
      Latest();
    }

    ghost predicate Sending(id: nat, ws: seq<Store>, k: nat)
      reads log, log.bc, log.bc.buf, log.bc.next, log.bc.prev
      requires Loggable(log.g, ws) && k <= |ws|
    {
      log.Valid(0) && Sent(log.g, id, ws, k, log.m) && log.bc.buf.Length >= MAXOPBLOCKS + 2
    }

    /** The log has room for it, and so has the cache. */
    lemma Fits(id: nat, ws: seq<Store>, k: nat)
      requires Loggable(log.g, ws) && k <= |ws| && Sending(id, ws, k) && InBudget(ws)
      ensures |log.lh| <= MAXOPBLOCKS && (k < |ws| ==> |log.lh| < MAXOPBLOCKS) && log.Roomy()
    {
      BlocksSmall(log.g, ws[..k]);
      LogSize(log.lh, BlocksOf(ws[..k]));
      log.PinCount();
      if k < |ws| {
        BlocksGrow(ws, k, |ws| - 1);
        Sets.SubsetSize(BlocksOf(ws[..k]), BlocksOf(ws[..|ws| - 1]));
      } else if k > 0 {
        assert ws[..k] == ws;
      }
    }

    /** One write: bread, log_write and brelse. */
    method SendOne(ghost id: nat, ws: seq<Store>, k: nat)
      requires Loggable(log.g, ws) && k < |ws| && Sending(id, ws, k) && InBudget(ws)
      modifies log`lh, log`pin, log`events, log`m, log.bc`refs, log.bc`order, log.bc`latest, log.bc`pins, log.bc.buf,
               log.bc.next, log.bc.prev
      ensures Sending(id, ws, k + 1) && L.Steady(old(log.m), log.m) && old(log.events) <= log.events
    {
      Fits(id, ws, k);
      L.LeadsRanges(log.g, log.first, log.events, log.m);
      SentMore(log.g, id, ws, k, log.m);
      var w := ws[k];
      var ok := log.UpdateBlock(w.b, Words(w.data), 0);
    }

    /** Pass a transaction's writes to the log. None of log_write's panics is reached. */
    method Send(ghost id: nat, ws: seq<Store>)
      requires Loggable(log.g, ws) && Sending(id, ws, 0) && InBudget(ws)
      modifies log`lh, log`pin, log`events, log`m, log.bc`refs, log.bc`order, log.bc`latest, log.bc`pins, log.bc.buf,
               log.bc.next, log.bc.prev
      ensures Sending(id, ws, |ws|) && log.Roomy() && L.Steady(old(log.m), log.m) && old(log.events) <= log.events
    {
      var k := 0;
      while k < |ws|
        invariant 0 <= k <= |ws| && Sending(id, ws, k)
        invariant L.Steady(old(log.m), log.m) && old(log.events) <= log.events
      {
        SendOne(id, ws, k);
        k := k + 1;
      }
      Fits(id, ws, |ws|);
    }

    /**
     * One transaction of filewrite, through the log: begin_op, writei, end_op. It cannot fail for want of log or
     * buffers.
     */
    method Write(i: nat, off: nat, part: seq<Byte>, limit: nat, id: nat) returns (r: int)
      requires Inv() && i < |fs.inodes| && off < U32 && |part| <= CHUNK && id !in log.m.begun
      modifies this, fs, log, log.bc, log.bc.buf, log.bc.next, log.bc.prev
      ensures Inv() && |past| == |old(past)| + 1 && past[..|old(past)|] == old(past)
      ensures -1 <= r <= |part| && Written(old(fs.disk), old(fs.inodes), fs.disk, fs.inodes, i, off, part[..Got(r)])
      ensures log.m.begun == old(log.m.begun) + {id} && acks == old(acks) + [|log.bc.trace|]
    {
      r := fs.WriteOp(i, off, part, limit);
      WritesAreHome();
      Commit(id, fs.writes, Now());
    }

    /** itrunc through the log, for a file whose bitmap blocks are within the allowance. */
    method Trunc(i: nat, id: nat)
      requires Inv() && i < |fs.inodes| && id !in log.m.begun && |MapsOf(fs.sb, fs.own, i)| < MAXOPBLOCKS
      modifies this, fs, log, log.bc, log.bc.buf, log.bc.next, log.bc.prev
      ensures Inv() && |past| == |old(past)| + 1 && past[..|old(past)|] == old(past)
      ensures |fs.inodes| == |old(fs.inodes)| && |fs.inodes[i].addrs| == NDIRECT + 1
      ensures fs.inodes[i] == old(fs.inodes)[i].(size := 0, addrs := fs.inodes[i].addrs)
      ensures AllTrimmed(old(fs.own), fs.own, i)
      ensures forall j, a: nat :: 0 <= j < |fs.inodes| && j != i ==>
                fs.inodes[j] == old(fs.inodes)[j]
                && FileByte(fs.disk, fs.inodes[j], a) == FileByte(old(fs.disk), fs.inodes[j], a)
      ensures log.m.begun == old(log.m.begun) + {id} && acks == old(acks) + [|log.bc.trace|]
    {
      fs.TruncOp(i);
      WritesAreHome();
      Commit(id, fs.writes, Now());
    }

    /** What the file system writes is not in the log area. */
    lemma WritesAreHome()
      requires fs.Valid() && log.g.size == fs.sb.size && log.g.start + 1 + LOGBLOCKS <= fs.sb.inodestart
      ensures Loggable(log.g, fs.writes) && fs.disk == Replay(fs.start, fs.writes) && Good(fs.sb, Now())
    {
      fs.TrackedIs();
      fs.ValidIs();
    }

    /** begin_op, when no other system call is under way. */
    method Begin(id: nat, ghost ws: seq<Store>)
      requires log.Valid(0) && log.m.phase.Running? && log.outstanding == 0 && log.lh == [] && log.m.open == []
      requires Loggable(log.g, ws) && id !in log.m.begun && log.bc.buf.Length >= MAXOPBLOCKS + 2
      modifies log`outstanding, log`events, log`m
      ensures Sending(id, ws, 0) && log.m.groups == old(log.m.groups) && log.m.begun == old(log.m.begun) + {id}
      ensures old(log.events) <= log.events
    {
      var admitted := log.BeginOp(id);
      assert ws[..0] == [];
    }

    /** end_op: the transaction is a group of its own. */
    method End(ghost id: nat, ghost ws: seq<Store>)
      requires Loggable(log.g, ws) && Sending(id, ws, |ws|) && log.Roomy()
      modifies log, log.bc, log.bc.buf, log.bc.next, log.bc.prev
      ensures log.Valid(0) && log.m.phase.Running? && log.outstanding == 0 && log.lh == [] && log.m.open == []
      ensures log.m.groups == old(log.m.groups) + [Logged(id, ws)] && log.m.returned == |log.m.groups|
      ensures log.m.begun == old(log.m.begun) && old(log.events) <= log.events
    {
      assert ws[..|ws|] == ws;
      var ok := log.EndOp(0);
      L.LeadsIdle(log.g, log.first, log.events, log.m);
    }

    /** Log the transaction that the file system has just made. */
    method Commit(id: nat, ws: seq<Store>, ghost x: Picture)
      requires Kept() && log.Valid(0) && log.m.phase.Running? && log.outstanding == 0 && log.lh == []
               && log.m.open == []
      requires |past| == |log.m.groups| + 1 && log.bc.buf.Length >= MAXOPBLOCKS + 2 && Good(fs.sb, x)
      requires Loggable(log.g, ws) && InBudget(ws) && x.disk == Replay(past[|log.m.groups|].disk, ws)
               && id !in log.m.begun
      modifies this, log, log.bc, log.bc.buf, log.bc.next, log.bc.prev
      ensures Kept() && log.Valid(0) && log.m.phase.Running? && log.outstanding == 0 && log.lh == [] && log.m.open == []
      ensures past == old(past) + [x] && |past| == |log.m.groups| + 1
      ensures log.m.begun == old(log.m.begun) + {id} && acks == old(acks) + [|log.bc.trace|]
    {
      ChronicleMore(log.g, LM.Recover(log.g, log.first), log.m.groups, past, id, ws, x);
      Begin(id, ws);
      Send(id, ws);
      End(id, ws);
      Acknowledge(old(log.events));
      past, acks, marks := past + [x], acks + [|log.bc.trace|], marks + [|log.events|];
    }

    /** The transaction that has just returned is acknowledged from this moment on. */
    lemma Acknowledge(es: seq<LM.Event>)
      requires Acked(log.g, log.first, es, marks, acks) && es <= log.events && log.OnTrack()
      requires log.m.returned >= |acks|
      ensures Acked(log.g, log.first, log.events, marks + [|log.events|], acks + [|log.bc.trace|])
    {
      AckedStays(log.g, log.first, es, log.events, marks, acks);
      assert Sought(0);
      AckedMore(log.g, log.first, log.events, marks, acks, log.m);
    }

    /** Between transactions the cache, and the disk itself, hold what the file system thinks. */
    lemma CacheIs()
      requires Inv()
      ensures Holds(log.g, log.bc.latest, fs.disk) && Holds(log.g, log.bc.disk, fs.disk)
    {
      assert Sought(0);
      LR.ExecInv(log.g, log.first, log.events);
      assert log.m.groups[..|log.m.groups|] == log.m.groups;
    }

    /**
     * Whatever the disk has held, write by write: had the machine stopped there, recovery would have given the
     * file system as some transaction left it, with the free map right, no block lost and no file with a hole.
     * No transaction that had returned by then is missing.
     */
    lemma Survives(k: nat) returns (j: nat)
      requires Kept() && k < |log.bc.trace|
      ensures j < |past| && Good(fs.sb, past[j])
      ensures LM.DiskOk(log.g, log.bc.trace[k]) && Holds(log.g, LM.Recover(log.g, log.bc.trace[k]), past[j].disk)
      ensures forall t :: 0 <= t < |acks| && acks[t] <= k + 1 ==> t <= j
    {
      var s := log.AlwaysSafe(k);
      j := s.durable;
      assert s.groups[..j] == log.m.groups[..j];
      forall t | 0 <= t < |acks| && acks[t] <= k + 1 ensures t <= j {
        AckedIs(log.g, log.first, log.events, marks, acks, t);
        var q := marks[t];
        assert LR.Extends(LR.Exec(log.g, log.first, log.events[..q]).state, s);
      }
    }
  }

  /** Log and file system share a disk: the log lies below the inodes. */
  ghost predicate Fit(g: LM.Layout, sb: Super) {
    Layout(sb) && g.size == sb.size && g.start + 1 + LOGBLOCKS <= sb.inodestart
  }

  /**
   * Boot: binit, recovery from the log, and the file system that the recovered disk holds. Any disk will do that
   * recovers to a good file system `x`; what comes up is that file system.
   */
  method Boot(n: nat, e: Disk, g: LM.Layout, sb: Super, ghost x: Picture) returns (k: Machine)
    requires n >= MAXOPBLOCKS + 2 && Fit(g, sb) && LM.DiskOk(g, e)
    requires Good(sb, x) && Holds(g, LM.Recover(g, e), x.disk)
    ensures fresh(k) && fresh(k.fs) && fresh(k.log) && fresh(k.log.bc)
    ensures fresh(k.log.bc.buf) && fresh(k.log.bc.next) && fresh(k.log.bc.prev)
    ensures k.Inv() && k.fs.sb == sb && k.log.g == g && k.log.m.begun == {} && |k.past| == 1
    ensures k.fs.inodes == x.inodes && k.fs.own == x.own
    ensures forall i, a: nat :: 0 <= i < |x.inodes| ==>
              FileByte(k.fs.disk, x.inodes[i], a) == FileByte(x.disk, x.inodes[i], a)
  {
    var bc := new Bio.BufCache(n, e);
    var log := new L.Log(bc, g);
    var ok := log.RecoverFromLog();
    Recovered(log);
    ghost var d := AllBytes(bc.disk);
    HeldBytes(g, bc.disk, x.disk);
    SameAbove(sb, x, d);
    var fs := new FileSystem.Mount(sb, AllBytes(bc.disk), x.(disk := d));
    k := new Machine(fs, log);
  }

  /** What recovery leaves on the disk is the recovered disk. */
  lemma Recovered(log: L.Log)
    requires log.OnTrack() && log.m.phase.Running? && log.m.active == [] && log.m.groups == []
    ensures LM.DiskOk(log.g, log.first) && LM.SameHome(log.g, log.bc.disk, LM.Recover(log.g, log.first))
    ensures log.m.open == []
  {
    assert Sought(0);
    LR.ExecInv(log.g, log.first, log.events);
  }

  /**
   * The machine stops when the disk has had `k + 1` contents, and is booted again from what the disk then held.
   * It comes up with the file system of transaction `j`, and no transaction that had returned is missing.
   */
  method Restart(was: Machine, ghost k: nat, d: Disk, n: nat) returns (m: Machine, ghost j: nat)
    requires was.Kept() && k < |was.log.bc.trace| && d == was.log.bc.trace[k] && n >= MAXOPBLOCKS + 2
    ensures fresh(m) && m.Inv() && m.fs.sb == was.fs.sb && m.log.g == was.log.g && m.log.m.begun == {}
    ensures j < |was.past| && m.fs.inodes == was.past[j].inodes && m.fs.own == was.past[j].own
    ensures forall i, a: nat :: 0 <= i < |m.fs.inodes| ==>
              FileByte(m.fs.disk, m.fs.inodes[i], a) == FileByte(was.past[j].disk, was.past[j].inodes[i], a)
    ensures forall t :: 0 <= t < |was.acks| && was.acks[t] <= k + 1 ==> t <= j
  {
    j := was.Survives(k);
    m := Boot(n, d, was.log.g, was.fs.sb, was.past[j]);
  }

  /** Power fails between transactions: after the reboot every file is there, with every byte. */
  method PowerCut(was: Machine, n: nat) returns (m: Machine)
    requires was.Inv() && n >= MAXOPBLOCKS + 2
    ensures fresh(m) && m.Inv() && m.fs.sb == was.fs.sb && m.fs.inodes == was.fs.inodes && m.fs.own == was.fs.own
    ensures forall i, a: nat :: 0 <= i < |m.fs.inodes| ==>
              FileByte(m.fs.disk, m.fs.inodes[i], a) == FileByte(was.fs.disk, was.fs.inodes[i], a)
  {
    was.Latest();
    ghost var k, j := |was.log.bc.trace| - 1, 0;
    m, j := Restart(was, k, was.log.bc.disk, n);
  }

  /** The first boot, from the disk that mkfs makes. */
  method FirstBoot(n: nat, g: LM.Layout, sb: Super) returns (m: Machine)
    requires n >= MAXOPBLOCKS + 2 && Fit(g, sb)
    ensures fresh(m) && m.Inv() && m.fs.sb == sb && m.log.m.begun == {}
    ensures |m.fs.inodes| == sb.ninodes && forall i :: 0 <= i < |m.fs.inodes| ==> m.fs.inodes[i] == NoInode()
  {
    var fs := new FileSystem.Format(sb);
    fs.ValidIs();
    ghost var x := Picture(fs.disk, fs.inodes, fs.own);
    var e := AllWords(fs.disk);
    WordZero(0);
    assert e[g.start] == Words(ZeroBlock());
    assert LM.HeaderOf(e[g.start]) == [];
    m := Boot(n, e, g, sb, x);
  }
}
