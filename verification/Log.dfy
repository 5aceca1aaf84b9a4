/**
 * kernel/log.c as it is written: loops that read and write blocks through the
 * buffer cache. A ghost log of events shows that every disk write, and every
 * point at which the code could be cut off, lies on a run of LogModel, so its
 * crash theorems hold of this code.
 */
module Log {
  import opened Common
  import opened DiskTypes
  import LM = LogModel
  import LR = LogRuns
  import opened Bio
  import opened Sets

  ghost predicate NoDup(lh: seq<Word>) {
    forall i, j :: 0 <= i < j < |lh| ==> lh[i] != lh[j]
  }

  /** The run `es` from disk `d` leads to `s`. */
  ghost predicate Leads(g: LM.Layout, d: Disk, es: seq<LM.Event>, s: LM.State) {
    && LM.DiskOk(g, d) && |s.view| == g.size
    && forall k: int {:trigger Sought(k)} :: Sought(k) ==> LR.Exec(g, d, es) == LR.At(s)
  }

  /** Log entries name home blocks, log blocks exist, and the header fits. */
  ghost predicate Ranges(g: LM.Layout, s: LM.State) {
    && |s.view| == |s.disk| == g.size && g.start + LOGBLOCKS < g.size
    && |s.lh| <= LOGBLOCKS
    && (forall k :: 0 <= k < |s.lh| ==> g.Home(s.lh[k]))
    && s.disk[g.start][0] <= LOGBLOCKS
    && (s.phase.Boot? ==> s.view == s.disk && s.active == [] && s.lh == [])
    && (s.active != [] ==> s.phase.Running?)
  }

  /** No system call has begun or ended: the same calls, the same commit groups. */
  predicate Steady(s: LM.State, s': LM.State) {
    s'.groups == s.groups && s'.begun == s.begun
  }

  lemma LeadsRanges(g: LM.Layout, d: Disk, es: seq<LM.Event>, s: LM.State)
    requires Leads(g, d, es, s)
    ensures Ranges(g, s)
  {
    assert Sought(0);
    LR.ExecInv(g, d, es);
  }

  lemma LeadsIdle(g: LM.Layout, d: Disk, es: seq<LM.Event>, s: LM.State)
    requires Leads(g, d, es, s)
    ensures s.phase.Running? && s.active == [] && s.lh == [] ==> s.open == []
  {
    assert Sought(0);
    LR.ExecInv(g, d, es);
  }

  lemma LeadsShape(g: LM.Layout, d: Disk, es: seq<LM.Event>, s: LM.State)
    requires Leads(g, d, es, s)
    ensures LM.Shape(g, s)
  {
    assert Sought(0);
    LR.ExecInv(g, d, es);
  }

  /** A run goes on with any enabled step. */
  lemma Take(g: LM.Layout, d: Disk, es: seq<LM.Event>, s: LM.State, e: LM.Event, s': LM.State)
    requires Leads(g, d, es, s) && LM.Shape(g, s) && LM.Enabled(g, s, e) && s' == LM.Apply(g, s, e)
    ensures Leads(g, d, es + [e], s')
  {
    assert Sought(0);
  }

  lemma TakeCopyBlock(g: LM.Layout, d: Disk, es: seq<LM.Event>, s: LM.State, t: nat)
    requires Leads(g, d, es, s) && Ranges(g, s) && s.phase == LM.WriteLog(t) && t < |s.lh|
    ensures var x := s.view[s.lh[t]];
            Leads(g, d, es + [LM.CopyBlock], LM.Put(s, g.start + 1 + t, x).(phase := LM.WriteLog(t + 1)))
  {
    LeadsShape(g, d, es, s);
    var x := s.view[s.lh[t]];
    Take(g, d, es, s, LM.CopyBlock, LM.Put(s, g.start + 1 + t, x).(phase := LM.WriteLog(t + 1)));
  }

  lemma TakeWriteHead(g: LM.Layout, d: Disk, es: seq<LM.Event>, s: LM.State)
    requires Leads(g, d, es, s) && Ranges(g, s) && s.phase == LM.WriteLog(|s.lh|)
    ensures var h := LM.WithHeader(s.view[g.start], s.lh);
            Leads(g, d, es + [LM.WriteHead], LM.Put(s, g.start, h).(durable := s.durable + 1, phase := LM.Install(0)))
  {
    LeadsShape(g, d, es, s);
    var h := LM.WithHeader(s.view[g.start], s.lh);
    Take(g, d, es, s, LM.WriteHead, LM.Put(s, g.start, h).(durable := s.durable + 1, phase := LM.Install(0)));
  }

  lemma TakeInstallBlock(g: LM.Layout, d: Disk, es: seq<LM.Event>, s: LM.State, t: nat)
    requires Leads(g, d, es, s) && Ranges(g, s) && s.phase == LM.Install(t) && t < |s.lh|
    ensures var x := s.view[g.start + 1 + t];
            Leads(g, d, es + [LM.InstallBlock], LM.Put(s, s.lh[t], x).(phase := LM.Install(t + 1)))
  {
    LeadsShape(g, d, es, s);
    var x := s.view[g.start + 1 + t];
    Take(g, d, es, s, LM.InstallBlock, LM.Put(s, s.lh[t], x).(phase := LM.Install(t + 1)));
  }

  lemma TakeClear(g: LM.Layout, d: Disk, es: seq<LM.Event>, s: LM.State, e: LM.Event)
    requires Leads(g, d, es, s) && Ranges(g, s)
    requires || (e.ClearHead? && s.phase == LM.Install(|s.lh|))
             || (e.RecoverClear? && s.phase == LM.Recovering(|s.lh|))
    ensures var h := LM.WithHeader(s.view[g.start], []);
            Leads(g, d, es + [e], LM.Put(s, g.start, h).(lh := [],
                                                         phase := if e.ClearHead? then LM.Finish else LM.Running))
  {
    LeadsShape(g, d, es, s);
    var h := LM.WithHeader(s.view[g.start], []);
    Take(g, d, es, s, e, LM.Put(s, g.start, h).(lh := [], phase := if e.ClearHead? then LM.Finish else LM.Running));
  }

  lemma TakeReadHead(g: LM.Layout, d: Disk, es: seq<LM.Event>, s: LM.State)
    requires Leads(g, d, es, s) && Ranges(g, s) && s.phase.Boot?
    ensures Leads(g, d, es + [LM.ReadHead], s.(lh := LM.HeaderOf(s.view[g.start]), phase := LM.Recovering(0)))
  {
    LeadsShape(g, d, es, s);
    Take(g, d, es, s, LM.ReadHead, s.(lh := LM.HeaderOf(s.view[g.start]), phase := LM.Recovering(0)));
  }

  lemma TakeRecoverBlock(g: LM.Layout, d: Disk, es: seq<LM.Event>, s: LM.State, t: nat)
    requires Leads(g, d, es, s) && Ranges(g, s) && s.phase == LM.Recovering(t) && t < |s.lh|
    ensures var x := s.view[g.start + 1 + t];
            Leads(g, d, es + [LM.RecoverBlock], LM.Put(s, s.lh[t], x).(phase := LM.Recovering(t + 1)))
  {
    LeadsShape(g, d, es, s);
    var x := s.view[g.start + 1 + t];
    Take(g, d, es, s, LM.RecoverBlock, LM.Put(s, s.lh[t], x).(phase := LM.Recovering(t + 1)));
  }

  /** The state after end_op's critical section. */
  ghost function AfterEndOp(s: LM.State, j: nat): (s': LM.State)
    requires j < |s.active|
  {
    if |s.active| > 1 then s.(active := LM.Remove(s.active, j))
    else s.(active := [], groups := s.groups + [s.open], open := [],
            durable := if s.lh == [] then s.durable + 1 else s.durable,
            phase := if s.lh == [] then LM.Finish else LM.WriteLog(0))
  }

  lemma TakeEndOp(g: LM.Layout, d: Disk, es: seq<LM.Event>, s: LM.State, j: nat)
    requires Leads(g, d, es, s) && s.phase.Running? && j < |s.active|
    ensures Leads(g, d, es + [LM.EndOp(j)], AfterEndOp(s, j))
  {
    LeadsShape(g, d, es, s);
    Take(g, d, es, s, LM.EndOp(j), AfterEndOp(s, j));
  }

  lemma TakeReturn(g: LM.Layout, d: Disk, es: seq<LM.Event>, s: LM.State)
    requires Leads(g, d, es, s) && s.phase.Finish?
    ensures Leads(g, d, es + [LM.Return], s.(phase := LM.Running, returned := |s.groups|))
  {
    LeadsShape(g, d, es, s);
    Take(g, d, es, s, LM.Return, s.(phase := LM.Running, returned := |s.groups|));
  }

  /** The state after log_write of `data` by the `j`th running system call. */
  ghost function AfterLogWrite(s: LM.State, j: nat, bno: Word, data: Block): (s': LM.State)
    requires j < |s.active| && bno < |s.view|
  {
    var op := s.active[j];
    s.(view := s.view[bno := data], lh := LM.Absorb(s.lh, bno),
       active := if bno in s.lh then s.active else s.active[j := op.(added := op.added + 1)],
       open := s.open + [LM.Write(op.id, bno, data)])
  }

  lemma TakeLogWrite(g: LM.Layout, d: Disk, es: seq<LM.Event>, s: LM.State, j: nat, bno: Word, data: Block)
    requires Leads(g, d, es, s) && Ranges(g, s)
    requires s.phase.Running? && j < |s.active| && g.Home(bno) && |s.lh| < LOGBLOCKS
    ensures Leads(g, d, es + [LM.LogWrite(j, bno, data)], AfterLogWrite(s, j, bno, data))
  {
    LeadsShape(g, d, es, s);
    Take(g, d, es, s, LM.LogWrite(j, bno, data), AfterLogWrite(s, j, bno, data));
  }

  class Log {
    const bc: BufCache
    const g: LM.Layout
    var outstanding: int
    var committing: bool
    var lh: seq<Word>            // log.lh.block[..log.lh.n]

    ghost const first: Disk      // the disk that was booted
    ghost var events: seq<LM.Event>
    ghost var m: LM.State        // where those events lead
    ghost var pin: seq<nat>      // the buffer pinned for each log entry

    /**
     * The events so far are a run, it has led to the disk as it is, and every write to the disk was one of its steps.
     */
    ghost predicate OnTrack()
      reads this, bc
    {
      Leads(g, first, events, m) && m.disk == bc.disk && bc.trace == m.trace
    }

    /** At least two buffers are not pinned. */
    ghost predicate Roomy()
      reads this, bc
    {
      |bc.pins| + 1 < bc.buf.Length
    }

    /** Exactly the buffers of the log entries from `t` on are pinned. */
    ghost predicate Pinned(t: nat)
      reads this, bc, bc.buf
    {
      if t >= |lh| then bc.pins == {}
      else
        && |pin| == |lh| && NoDup(lh)
        && (forall k :: t <= k < |lh| ==> pin[k] in bc.pins && pin[k] < bc.buf.Length
                                          && bc.buf[pin[k]].blockno == lh[k])
        && (forall i :: i in bc.pins ==> i < bc.buf.Length && LM.Named(lh, t, bc.buf[i].blockno))
    }

    /** Memory and cache agree with the machine. */
    ghost predicate Agrees()
      reads this, bc
    {
      && m.view == bc.latest && m.lh == lh && |m.active| == outstanding
      && committing == (m.phase.WriteLog? || m.phase.Install? || m.phase.Finish?)
    }

    /** The state between two critical sections: no buffer is in use. */
    ghost predicate Valid(t: nat)
      reads this, bc, bc.buf, bc.next, bc.prev
    {
      OnTrack() && Agrees() && Pinned(t) && bc.Valid() && bc.refs == map[]
    }

    /** initlog up to recover_from_log. */
    constructor (bc: BufCache, g: LM.Layout)
      requires bc.Valid() && bc.refs == map[] && bc.pins == {} && bc.latest == bc.disk && bc.trace == [bc.disk]
               && LM.DiskOk(g, bc.disk)
      ensures this.bc == bc && this.g == g && first == bc.disk && events == [] && m == LM.Init(g, bc.disk)
      ensures Valid(0) && m.phase.Boot?
    {
      this.bc, this.g := bc, g;
      outstanding, committing, lh := 0, false, [];
      first, events, pin := bc.disk, [], [];
      m := LM.Init(g, bc.disk);
    }

    /** Record that the code has taken step `e`, leading to `s`. */
    ghost method Record(e: LM.Event, s: LM.State)
      requires Leads(g, first, events + [e], s)
      modifies this`events, this`m
      ensures m == s && events == old(events) + [e] && Leads(g, first, events, m)
    {
      m, events := s, events + [e];
    }

    /** One turn of write_log's loop. False where bget panics. */
    method WriteLogBlock(tail: nat) returns (ok: bool)
      requires Valid(0) && m.phase == LM.WriteLog(tail) && tail < |lh|
      modifies this`events, this`m, bc, bc.buf, bc.next, bc.prev
      ensures OnTrack() && old(events) <= events && Steady(old(m), m)
      ensures old(Roomy()) ==> ok && Roomy()
      ensures ok ==> Valid(0) && m.phase == LM.WriteLog(tail + 1)
    {
      LeadsRanges(g, first, events, m);
      TakeCopyBlock(g, first, events, m, tail);
      ghost var x := m.view[m.lh[tail]];
      ghost var s := LM.Put(m, g.start + 1 + tail, x).(phase := LM.WriteLog(tail + 1));
      assert g.Home(lh[tail]);
      ghost var es := events + [LM.CopyBlock];
      assert Leads(g, first, es, s);
      ok := CopyEntry(g.start + tail + 1, lh[tail]);
      if ok {
        assert events + [LM.CopyBlock] == es;
        Record(LM.CopyBlock, s);
      }
    }

    /** What that turn does in the cache and on the disk. */
    method CopyEntry(log: nat, home: nat) returns (ok: bool)
      requires Pinned(0) && bc.Valid() && bc.refs == map[] && log != home && log < |bc.disk| && home < |bc.disk|
      modifies bc, bc.buf, bc.next, bc.prev
      ensures old(Roomy()) ==> ok && Roomy()
      ensures bc.trace == if ok then old(bc.trace) + [bc.disk] else old(bc.trace)
      ensures !ok ==> bc.disk == old(bc.disk)
      ensures ok ==>
                && Pinned(0) && bc.Valid() && bc.refs == map[]
                && bc.latest == old(bc.latest)[log := old(bc.latest)[home]]
                && bc.disk == old(bc.disk)[log := old(bc.latest)[home]]
    {
      ok := bc.CopyToLog(log, home);
    }

    /** write_log: copy each logged block from the cache to the log. */
    method WriteLog() returns (ok: bool)
      requires Valid(0) && m.phase == LM.WriteLog(0)
      modifies this`events, this`m, bc, bc.buf, bc.next, bc.prev
      ensures OnTrack() && old(events) <= events && Steady(old(m), m)
      ensures old(Roomy()) ==> ok && Roomy()
      ensures ok ==> Valid(0) && m.phase == LM.WriteLog(|lh|)
    {
      var tail := 0;
      while tail < |lh|
        invariant 0 <= tail <= |lh| && Valid(0) && m.phase == LM.WriteLog(tail)
        invariant old(events) <= events && Steady(old(m), m) && (old(Roomy()) ==> Roomy())
      {
        ok := WriteLogBlock(tail);
        if !ok {
          return;
        }
        tail := tail + 1;
      }
      return true;
    }

    /** The header block with log.lh copied in, entry by entry. */
    method FillHeader(b: Block) returns (h: Block)
      requires |lh| <= LOGBLOCKS
      ensures h == LM.WithHeader(b, lh)
    {
      h := b[0 := |lh|];
      var i := 0;
      while i < |lh|
        invariant 0 <= i <= |lh|
        invariant h == [|lh|] + lh[..i] + b[1 + i..]
      {
        h := h[1 + i := lh[i]];
        i := i + 1;
      }
    }

    /** write_head: rewrite the header block, keeping what follows the entries. */
    method WriteHead() returns (ok: bool)
      requires bc.Valid() && bc.refs == map[] && |lh| <= LOGBLOCKS && g.start < |bc.disk|
      modifies bc`refs, bc`order, bc`latest, bc`disk, bc`trace, bc.buf, bc.next, bc.prev
      ensures Roomy() ==> ok
      ensures bc.trace == if ok then old(bc.trace) + [bc.disk] else old(bc.trace)
      ensures !ok ==> bc.disk == old(bc.disk)
      ensures ok ==>
                var h := LM.WithHeader(old(bc.latest)[g.start], lh);
                && bc.Valid() && bc.refs == map[]
                && bc.latest == old(bc.latest)[g.start := h] && bc.disk == old(bc.disk)[g.start := h]
      ensures forall k :: k in bc.pins && 0 <= k < bc.buf.Length ==> bc.buf[k].blockno == old(bc.buf[k].blockno)
    {
      bc.FreeToRead(g.start);
      var i := bc.Bread(0, g.start);
      if i < 0 {
        return false;
      }
      var h := FillHeader(bc.buf[i].data);
      bc.Overwrite(0, i, g.start, h);
      bc.Brelse(0, i, g.start);
      return true;
    }

    /** read_head's loop. */
    method HeaderWords(b: Block) returns (hs: seq<Word>)
      requires b[0] <= LOGBLOCKS
      ensures hs == LM.HeaderOf(b)
    {
      hs := [];
      var k := 0;
      while k < b[0]
        invariant 0 <= k <= b[0] && hs == b[1..1 + k]
      {
        hs := hs + [b[1 + k]];
        k := k + 1;
      }
    }

    /** read_head: load log.lh from the header block. */
    method LoadHeader() returns (ok: bool, hs: seq<Word>)
      requires bc.Valid() && bc.refs == map[] && g.start < |bc.disk| && bc.latest[g.start][0] <= LOGBLOCKS
      modifies bc`refs, bc`order, bc.buf, bc.next, bc.prev
      ensures Roomy() ==> ok
      ensures ok ==> bc.Valid() && bc.refs == map[] && hs == LM.HeaderOf(bc.latest[g.start])
    {
      hs := [];
      bc.FreeToRead(g.start);
      var i := bc.Bread(0, g.start);
      if i < 0 {
        return false, hs;
      }
      hs := HeaderWords(bc.buf[i].data);
      bc.Brelse(0, i, g.start);
      return true, hs;
    }

    method ReadHead() returns (ok: bool)
      requires Valid(0) && m.phase.Boot?
      modifies this`events, this`m, this`lh, bc`refs, bc`order, bc.buf, bc.next, bc.prev
      ensures OnTrack() && old(events) <= events && Steady(old(m), m)
      ensures old(Roomy()) ==> ok && Roomy()
      ensures ok ==> Valid(|lh|) && m.phase == LM.Recovering(0)
    {
      LeadsRanges(g, first, events, m);
      TakeReadHead(g, first, events, m);
      var hs;
      ok, hs := LoadHeader();
      if !ok {
        return;
      }
      lh := hs;
      Record(LM.ReadHead, m.(lh := lh, phase := LM.Recovering(0)));
      return true;
    }

    /** Unpinning entry `t` leaves the later ones pinned. */
    lemma PinnedNext(t: nat)
      requires Pinned(t) && bc.Valid() && t < |lh|
      ensures forall k :: t < k < |lh| ==> pin[k] != pin[t]
      ensures forall i :: i in bc.pins && i != pin[t] ==> LM.Named(lh, t + 1, bc.buf[i].blockno)
    {
      forall i | i in bc.pins && i != pin[t] ensures LM.Named(lh, t + 1, bc.buf[i].blockno) {
        bc.PinsDiffer(i, pin[t]);
        var k :| t <= k < |lh| && lh[k] == bc.buf[i].blockno;
        assert k != t;
      }
    }

    /** No more buffers are pinned than there are log entries. */
    lemma PinCount()
      requires Pinned(0) && bc.Valid()
      ensures |bc.pins| <= |lh|
    {
      if lh != [] {
        forall i | i in bc.pins ensures i in pin {
          var k :| 0 <= k < |lh| && lh[k] == bc.buf[i].blockno;
          if i != pin[k] { bc.PinsDiffer(i, pin[k]); }
        }
        ElementsSize(pin, bc.pins);
      }
    }

    /** One turn of install_trans in a commit: the home block is written and unpinned. */
    method InstallBlock(tail: nat) returns (ok: bool)
      requires Valid(tail) && m.phase == LM.Install(tail) && tail < |lh|
      modifies this`events, this`m, bc, bc.buf, bc.next, bc.prev
      ensures OnTrack() && old(events) <= events && Steady(old(m), m)
      ensures old(Roomy()) ==> ok && Roomy()
      ensures ok ==> Valid(tail + 1) && m.phase == LM.Install(tail + 1)
    {
      LeadsRanges(g, first, events, m);
      TakeInstallBlock(g, first, events, m, tail);
      ghost var x := m.view[g.start + 1 + tail];
      ghost var s := LM.Put(m, m.lh[tail], x).(phase := LM.Install(tail + 1));
      assert g.Home(lh[tail]);
      ghost var es := events + [LM.InstallBlock];
      assert Leads(g, first, es, s);
      ok := InstallEntry(g.start + tail + 1, lh[tail], tail);
      if ok {
        assert events + [LM.InstallBlock] == es;
        Record(LM.InstallBlock, s);
      }
    }

    /** What that turn does in the cache and on the disk. */
    method InstallEntry(log: nat, home: nat, tail: nat) returns (ok: bool)
      requires Pinned(tail) && bc.Valid() && bc.refs == map[] && tail < |lh| && lh[tail] == home
      requires log != home && log < |bc.disk| && home < |bc.disk|
      modifies bc, bc.buf, bc.next, bc.prev
      ensures old(Roomy()) ==> ok && Roomy()
      ensures bc.trace == if ok then old(bc.trace) + [bc.disk] else old(bc.trace)
      ensures !ok ==> bc.disk == old(bc.disk)
      ensures ok ==>
                && Pinned(tail + 1) && bc.Valid() && bc.refs == map[]
                && bc.latest == old(bc.latest)[home := old(bc.latest)[log]]
                && bc.disk == old(bc.disk)[home := old(bc.latest)[log]]
    {
      PinnedNext(tail);
      ok := bc.InstallAndUnpin(log, home, pin[tail]);
    }

    /** One turn of install_trans in recovery. */
    method RecoverBlock(tail: nat) returns (ok: bool)
      requires Valid(|lh|) && m.phase == LM.Recovering(tail) && tail < |lh|
      modifies this`events, this`m, bc, bc.buf, bc.next, bc.prev
      ensures OnTrack() && old(events) <= events && Steady(old(m), m)
      ensures old(Roomy()) ==> ok && Roomy()
      ensures ok ==> Valid(|lh|) && m.phase == LM.Recovering(tail + 1)
    {
      LeadsRanges(g, first, events, m);
      TakeRecoverBlock(g, first, events, m, tail);
      ghost var x := m.view[g.start + 1 + tail];
      ghost var s := LM.Put(m, m.lh[tail], x).(phase := LM.Recovering(tail + 1));
      assert g.Home(lh[tail]);
      ok := bc.InstallHome(g.start + tail + 1, lh[tail]);
      if ok {
        Record(LM.RecoverBlock, s);
      }
    }

    /** install_trans: copy committed blocks from the log to their homes. */
    method InstallTrans(recovering: bool) returns (ok: bool)
      requires recovering ==> Valid(|lh|) && m.phase == LM.Recovering(0)
      requires !recovering ==> Valid(0) && m.phase == LM.Install(0)
      modifies this`events, this`m, bc, bc.buf, bc.next, bc.prev
      ensures OnTrack() && old(events) <= events && Steady(old(m), m)
      ensures old(Roomy()) ==> ok && Roomy()
      ensures ok ==> Valid(|lh|)
      ensures ok ==> m.phase == if recovering then LM.Recovering(|lh|) else LM.Install(|lh|)
    {
      var tail := 0;
      while tail < |lh|
        invariant 0 <= tail <= |lh| && old(events) <= events && Steady(old(m), m) && (old(Roomy()) ==> Roomy())
        invariant recovering ==> Valid(|lh|) && m.phase == LM.Recovering(tail)
        invariant !recovering ==> Valid(tail) && m.phase == LM.Install(tail)
      {
        if recovering {
          ok := RecoverBlock(tail);
        } else {
          ok := InstallBlock(tail);
        }
        if !ok {
          return;
        }
        tail := tail + 1;
      }
      return true;
    }

    /** Set log.lh.n to 0 and write the header: the end of a commit or of recovery. */
    method EraseLog() returns (ok: bool)
      requires Valid(|lh|) && (m.phase == LM.Install(|lh|) || m.phase == LM.Recovering(|lh|))
      modifies this`events, this`m, this`lh, bc`refs, bc`order, bc`latest, bc`disk, bc`trace, bc.buf, bc.next, bc.prev
      ensures OnTrack() && old(events) <= events && Steady(old(m), m)
      ensures old(Roomy()) ==> ok && Roomy()
      ensures ok ==> Valid(0) && lh == [] && m.phase == if old(m.phase.Install?) then LM.Finish else LM.Running
    {
      LeadsRanges(g, first, events, m);
      ghost var e := if m.phase.Install? then LM.ClearHead else LM.RecoverClear;
      TakeClear(g, first, events, m, e);
      ghost var h := LM.WithHeader(m.view[g.start], []);
      ghost var s := LM.Put(m, g.start, h).(lh := [], phase := if e.ClearHead? then LM.Finish else LM.Running);
      lh := [];
      ok := WriteHead();
      if ok {
        Record(e, s);
      }
    }

    /** recover_from_log. */
    method RecoverFromLog() returns (ok: bool)
      requires Valid(0) && m.phase.Boot?
      modifies this`events, this`m, this`lh, bc, bc.buf, bc.next, bc.prev
      ensures OnTrack() && old(events) <= events && Steady(old(m), m)
      ensures old(Roomy()) ==> ok
      ensures ok ==> Valid(0) && lh == [] && m.phase == LM.Running
    {
      ok := ReadHead();
      if !ok {
        return;
      }
      ok := InstallTrans(true);
      if !ok {
        return;
      }
      ok := EraseLog();
    }

    /** The commit point: the header goes to disk. */
    method CommitHead() returns (ok: bool)
      requires Valid(0) && m.phase == LM.WriteLog(|lh|)
      modifies this`events, this`m, bc`refs, bc`order, bc`latest, bc`disk, bc`trace, bc.buf, bc.next, bc.prev
      ensures OnTrack() && old(events) <= events && Steady(old(m), m)
      ensures old(Roomy()) ==> ok && Roomy()
      ensures ok ==> Valid(0) && m.phase == LM.Install(0) && m.durable == old(m.durable) + 1
    {
      LeadsRanges(g, first, events, m);
      TakeWriteHead(g, first, events, m);
      ghost var h := LM.WithHeader(m.view[g.start], m.lh);
      ghost var s := LM.Put(m, g.start, h).(durable := m.durable + 1, phase := LM.Install(0));
      ok := WriteHead();
      if ok {
        Record(LM.WriteHead, s);
      }
    }

    /** The first half of commit: the log and then its header go to disk. */
    method Persist() returns (ok: bool)
      requires Valid(0) && m.phase == LM.WriteLog(0)
      modifies this`events, this`m, bc, bc.buf, bc.next, bc.prev
      ensures OnTrack() && old(events) <= events && Steady(old(m), m)
      ensures old(Roomy()) ==> ok && Roomy()
      ensures ok ==> Valid(0) && m.phase == LM.Install(0)
    {
      ok := WriteLog();
      if !ok {
        return;
      }
      ok := CommitHead();
    }

    /** commit. */
    method Commit() returns (ok: bool)
      requires Valid(0)
      requires if |lh| > 0 then m.phase == LM.WriteLog(0) else m.phase == LM.Finish
      modifies this`events, this`m, this`lh, bc, bc.buf, bc.next, bc.prev
      ensures OnTrack() && old(events) <= events && Steady(old(m), m)
      ensures old(Roomy()) ==> ok
      ensures ok ==> Valid(0) && lh == [] && m.phase == LM.Finish
    {
      if |lh| == 0 {
        return true;
      }
      ok := Persist();
      if !ok {
        return;
      }
      ok := InstallTrans(false);
      if !ok {
        return;
      }
      ok := EraseLog();
    }

    /** begin_op: false where the caller sleeps until the next wakeup and tries again. */
    method BeginOp(id: nat) returns (admitted: bool)
      requires Valid(0) && (m.phase.Running? || committing) && id !in m.begun
      modifies this`outstanding, this`events, this`m
      ensures Valid(0) && old(events) <= events
      ensures admitted <==> !committing && |lh| + (old(outstanding) + 1) * MAXOPBLOCKS <= LOGBLOCKS
      ensures outstanding == if admitted then old(outstanding) + 1 else old(outstanding)
      ensures admitted ==> m == old(m).(active := old(m.active) + [LM.Op(id, 0)], begun := old(m.begun) + {id})
      ensures !admitted ==> m == old(m)
    {
      if committing {
        return false;
      } else if |lh| + (outstanding + 1) * MAXOPBLOCKS > LOGBLOCKS {
        return false;
      } else {
        outstanding := outstanding + 1;
        LeadsShape(g, first, events, m);
        ghost var s := m.(active := m.active + [LM.Op(id, 0)], begun := m.begun + {id});
        Take(g, first, events, m, LM.BeginOp(id), s);
        Record(LM.BeginOp(id), s);
        return true;
      }
    }

    /** The critical section of end_op: does this call have to commit? */
    method LeaveOp(ghost j: nat) returns (doCommit: bool)
      requires Valid(0) && m.phase.Running? && j < |m.active|
      modifies this`outstanding, this`committing, this`events, this`m
      ensures Valid(0) && old(events) <= events && m == AfterEndOp(old(m), j)
      ensures doCommit <==> outstanding == 0
    {
      TakeEndOp(g, first, events, m, j);
      outstanding := outstanding - 1;
      doCommit := outstanding == 0;
      if doCommit {
        committing := true;
      }
      Record(LM.EndOp(j), AfterEndOp(m, j));
    }

    /** end_op: the last system call to leave commits; when it returns, its group is on disk. */
    method EndOp(ghost j: nat) returns (ok: bool)
      requires Valid(0) && m.phase.Running? && j < |m.active|
      modifies this`outstanding, this`committing, this`lh, this`events, this`m, bc, bc.buf, bc.next, bc.prev
      ensures OnTrack() && old(events) <= events && Steady(AfterEndOp(old(m), j), m)
      ensures old(Roomy()) ==> ok
      ensures ok ==> Valid(0) && m.phase.Running? && outstanding == old(outstanding) - 1
      ensures ok && outstanding == 0 ==> lh == [] && m.returned == |m.groups|
    {
      var doCommit := LeaveOp(j);
      ok := true;
      if doCommit {
        ok := Commit();
        if ok {
          LeadsRanges(g, first, events, m);
          TakeReturn(g, first, events, m);
          committing := false;
          Record(LM.Return, m.(phase := LM.Running, returned := |m.groups|));
        }
      }
    }

    /** log_write's scan for the block: |lh| if it is not in the log yet. */
    method FindLogged(bno: Word) returns (i: nat)
      ensures i <= |lh|
      ensures i < |lh| ==> lh[i] == bno
      ensures i == |lh| ==> bno !in lh
    {
      i := 0;
      while i < |lh|
        invariant 0 <= i <= |lh| && bno !in lh[..i]
      {
        if lh[i] == bno {
          break;
        }
        i := i + 1;
      }
    }

    /** Everything but the contents of block `bno`, which its holder has just stored into. */
    ghost predicate Midway(h: nat, i: int, bno: Word)
      reads this, bc, bc.buf, bc.next, bc.prev
    {
      && OnTrack() && Pinned(0) && bc.Valid() && bc.Has(h, i, bno)
      && m.lh == lh && |m.active| == outstanding && m.phase.Running? && !committing
      && bno < |m.view| && bc.latest == m.view[bno := bc.buf[i].data]
    }

    /** A block new to the log: its buffer is not pinned. */
    lemma NewIsUnpinned(h: nat, i: int, bno: Word)
      requires bc.Valid() && Pinned(0) && bc.Has(h, i, bno) && bno !in lh
      ensures i !in bc.pins
    {
    }

    /** Append a block to the log and pin its buffer. */
    method AddEntry(h: nat, i: nat, bno: Word)
      requires bc.Valid() && Pinned(0) && bc.Has(h, i, bno) && bno !in lh
      modifies this`lh, this`pin, bc`pins, bc.buf
      ensures bc.Valid() && Pinned(0) && bc.Has(h, i, bno) && i in bc.pins && bc.buf[i].data == old(bc.buf[i].data)
      ensures lh == old(lh) + [bno]
    {
      NewIsUnpinned(h, i, bno);
      PinnedAppend(h, i, bno);
      ghost var pin0 := if lh == [] then [] else pin;
      bc.Bpin(h, i, bno);
      forall k | 0 <= k < |lh| ensures pin0[k] in bc.pins && pin0[k] < bc.buf.Length && bc.buf[pin0[k]].blockno == lh[k]
      {
        assert old(bc.buf[pin0[k]].blockno) == lh[k];
      }
      lh, pin := lh + [bno], pin0 + [i];
    }

    lemma PinnedAppend(h: nat, i: int, bno: Word)
      requires bc.Valid() && Pinned(0) && bc.Has(h, i, bno) && bno !in lh
      ensures NoDup(lh + [bno])
      ensures LM.Named(lh + [bno], 0, bno)
      ensures forall k :: k in bc.pins ==> LM.Named(lh + [bno], 0, bc.buf[k].blockno)
    {
      var l := lh + [bno];
      assert l[|lh|] == bno;
      forall k | k in bc.pins ensures LM.Named(l, 0, bc.buf[k].blockno) {
        var e :| 0 <= e < |lh| && lh[e] == bc.buf[k].blockno;
        assert l[e] == bc.buf[k].blockno;
      }
    }

    /** log_write: record the block; false is a panic. */
    method LogWrite(h: nat, i: nat, bno: Word, ghost j: nat) returns (ok: bool)
      requires Midway(h, i, bno) && g.Home(bno) && (outstanding >= 1 ==> j < |m.active|)
      modifies this`lh, this`pin, this`events, this`m, bc`pins, bc.buf
      ensures ok <==> old(|lh| < LOGBLOCKS && outstanding >= 1)
      ensures ok ==> bc.Valid() && bc.Has(h, i, bno) && i in bc.pins && bc.buf[i].data == old(bc.buf[i].data)
      ensures OnTrack() && old(events) <= events
      ensures ok ==> Agrees() && Pinned(0)
      ensures ok ==> m == AfterLogWrite(old(m), j, bno, bc.buf[i].data)
    {
      if |lh| >= LOGBLOCKS || outstanding < 1 {
        return false;
      }
      LeadsRanges(g, first, events, m);
      ghost var data := bc.buf[i].data;
      TakeLogWrite(g, first, events, m, j, bno, data);
      ghost var s, es := AfterLogWrite(m, j, bno, data), events + [LM.LogWrite(j, bno, data)];
      Enter(h, i, bno);
      assert events + [LM.LogWrite(j, bno, data)] == es;
      Record(LM.LogWrite(j, bno, data), s);
      return true;
    }

    /** log_write's loop and what follows it: absorb the block, or append and pin it. */
    method Enter(h: nat, i: nat, bno: Word)
      requires bc.Valid() && Pinned(0) && bc.Has(h, i, bno)
      modifies this`lh, this`pin, bc`pins, bc.buf
      ensures bc.Valid() && Pinned(0) && bc.Has(h, i, bno) && i in bc.pins && bc.buf[i].data == old(bc.buf[i].data)
      ensures lh == LM.Absorb(old(lh), bno)
    {
      var k := FindLogged(bno);
      if k == |lh| {
        AddEntry(h, i, bno);
      } else {
        bc.PinnedIs(h, i, bno, pin[k]);
        assert lh[k := bno] == lh;
        lh := lh[k := bno];
      }
    }

    /** bread a block and store into it. */
    method Modify(bno: Word, x: Block) returns (i: int)
      requires Valid(0) && m.phase.Running? && bno < |bc.disk|
      modifies bc`refs, bc`latest, bc.buf
      ensures OnTrack() && (Roomy() ==> i >= 0)
      ensures i >= 0 ==> Midway(0, i, bno) && bc.refs.Keys == {0} && bc.buf[i].data == x
    {
      bc.FreeToRead(bno);
      i := bc.Bread(0, bno);
      if i >= 0 {
        bc.Store(0, i, bno, x);
      }
    }

    /** The typical use: bread, modify, log_write, brelse. The disk is not touched. */
    method UpdateBlock(bno: Word, x: Block, ghost j: nat) returns (ok: bool)
      requires Valid(0) && m.phase.Running? && j < |m.active| && g.Home(bno)
      modifies this`lh, this`pin, this`events, this`m, bc`refs, bc`order, bc`latest, bc`pins, bc.buf, bc.next, bc.prev
      ensures OnTrack() && old(events) <= events && bc.disk == old(bc.disk) && bc.trace == old(bc.trace)
      ensures old(Roomy() && |lh| < LOGBLOCKS) ==> ok
      ensures ok ==> Valid(0) && m == AfterLogWrite(old(m), j, bno, x) && bc.latest == old(bc.latest)[bno := x]
    {
      LeadsRanges(g, first, events, m);
      var i := Modify(bno, x);
      if i < 0 {
        return false;
      }
      ok := LogWrite(0, i, bno, j);
      if ok {
        Release(i, bno);
      }
    }

    /** brelse of a logged buffer. */
    method Release(i: nat, bno: Word)
      requires OnTrack() && Agrees() && Pinned(0) && bc.Valid()
      requires bc.Has(0, i, bno) && i in bc.pins && bc.refs.Keys == {0}
      modifies bc`refs, bc`order, bc.buf, bc.next, bc.prev
      ensures Valid(0)
    {
      bc.Brelse(0, i, bno);
      assert bc.refs.Keys == {};
    }

    /** The code is crash safe: whatever happens now, recovery restores a whole number of commit groups. */
    lemma CrashSafe()
      requires OnTrack()
      ensures LR.Safe(g, first, m) && m.disk == bc.disk
    {
      assert Sought(0);
      LR.CrashAtomicity(g, first, events, |events|);
      assert events[..|events|] == events;
    }

    /** And so it was after every single write the code has made: `s` is the moment after the k-th. */
    lemma AlwaysSafe(k: nat) returns (s: LM.State)
      requires OnTrack() && k < |bc.trace|
      ensures LR.Safe(g, first, s) && s.disk == bc.trace[k] && LR.Extends(s, m)
      ensures forall q :: 0 <= q <= |events| && 0 < LR.Writes(g, first, events, q) <= k + 1 ==>
                LR.Extends(LR.Exec(g, first, events[..q]).state, s)
    {
      assert Sought(0);
      s := LR.EveryDisk(g, first, events, k);
    }
  }
}
