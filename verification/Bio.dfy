/**
 * The buffer cache of kernel/bio.c as it is written: an array of buffers threaded
 * on a circular doubly linked list, scanned and relinked in place. Each method is
 * proved to take the steps of BioModel.
 */
module Bio {
  import opened Common
  import opened DiskTypes
  import opened BioModel

  // ---------------------------------------------------------- the LRU list

  /** The `k`th buffer on the list; positions -1 and |order| are the list head `hd`. */
  function Nth(order: seq<nat>, hd: nat, k: int): (i: nat) {
    if 0 <= k < |order| then order[k] else hd
  }

  ghost predicate Distinct(order: seq<nat>, hd: nat) {
    && (forall k :: 0 <= k < |order| ==> order[k] < hd)
    && (forall j, k :: 0 <= j < k < |order| ==> order[j] != order[k])
  }

  /** `next` and `prev` spell out `order` in both directions. */
  ghost predicate Linked(next: seq<nat>, prev: seq<nat>, order: seq<nat>, hd: nat) {
    && |next| == |prev| == hd + 1
    && Distinct(order, hd)
    && (forall k {:trigger next[Nth(order, hd, k)]} :: -1 <= k < |order| ==>
          next[Nth(order, hd, k)] == Nth(order, hd, k + 1))
    && (forall k {:trigger prev[Nth(order, hd, k)]} :: 0 <= k <= |order| ==>
          prev[Nth(order, hd, k)] == Nth(order, hd, k - 1))
  }

  /** Linking `b` in at the head. */
  lemma PushLinked(next: seq<nat>, prev: seq<nat>, order: seq<nat>, hd: nat, b: nat)
    requires Linked(next, prev, order, hd) && b < hd && b !in order
    ensures next[hd] < |prev|
    ensures Linked(next[b := next[hd]][hd := b], prev[b := hd][next[hd] := b], [b] + order, hd)
  {
    assert next[Nth(order, hd, -1)] == Nth(order, hd, 0);
    var n', p' := next[b := next[hd]][hd := b], prev[b := hd][next[hd] := b];
    var o' := [b] + order;
    assert forall k :: 0 <= k <= |order| ==> Nth(o', hd, k + 1) == Nth(order, hd, k);
    forall k | -1 <= k < |o'| ensures n'[Nth(o', hd, k)] == Nth(o', hd, k + 1) {
      if k > 0 {
        assert Nth(o', hd, k) == Nth(order, hd, k - 1) == order[k - 1];
        assert next[Nth(order, hd, k - 1)] == Nth(order, hd, k) == Nth(o', hd, k + 1);
      }
    }
    forall k | 0 <= k <= |o'| ensures p'[Nth(o', hd, k)] == Nth(o', hd, k - 1) {
      if k > 1 {
        assert Nth(o', hd, k) == Nth(order, hd, k - 1) && Nth(o', hd, k - 1) == Nth(order, hd, k - 2);
        assert prev[Nth(order, hd, k - 1)] == Nth(order, hd, k - 2);
        assert Nth(order, hd, k - 1) != next[hd] && Nth(order, hd, k - 1) != b;
      }
    }
  }

  function Without(order: seq<nat>, k: nat): (r: seq<nat>)
    requires k < |order|
  {
    order[..k] + order[k + 1..]
  }

  lemma WithoutDistinct(order: seq<nat>, hd: nat, k: nat)
    requires Distinct(order, hd) && k < |order|
    ensures Distinct(Without(order, k), hd) && order[k] !in Without(order, k)
    ensures forall j :: -1 <= j <= |order| - 1 ==>
              Nth(Without(order, k), hd, j) == Nth(order, hd, if j < k then j else j + 1)
  {
  }

  /** Linking position `k` out: the forward chain ... */
  lemma UnlinkNext(next: seq<nat>, prev: seq<nat>, order: seq<nat>, hd: nat, k: nat, j: int)
    requires Linked(next, prev, order, hd) && k < |order| && -1 <= j < |order| - 1
    ensures prev[order[k]] < |next|
    ensures var b, r := order[k], Without(order, k);
            next[prev[b] := next[b]][Nth(r, hd, j)] == Nth(r, hd, j + 1)
  {
    WithoutDistinct(order, hd, k);
    var b := order[k];
    assert Nth(order, hd, k) == b;
    assert next[b] == Nth(order, hd, k + 1) && prev[b] == Nth(order, hd, k - 1);
    var j' := if j < k then j else j + 1;
    assert next[Nth(order, hd, j')] == Nth(order, hd, j' + 1);
  }

  /** ... and the backward chain. */
  lemma UnlinkPrev(next: seq<nat>, prev: seq<nat>, order: seq<nat>, hd: nat, k: nat, j: int)
    requires Linked(next, prev, order, hd) && k < |order| && 0 <= j <= |order| - 1
    ensures next[order[k]] < |prev|
    ensures var b, r := order[k], Without(order, k);
            prev[next[b] := prev[b]][Nth(r, hd, j)] == Nth(r, hd, j - 1)
  {
    WithoutDistinct(order, hd, k);
    var b := order[k];
    assert Nth(order, hd, k) == b;
    assert next[b] == Nth(order, hd, k + 1) && prev[b] == Nth(order, hd, k - 1);
    var j' := if j < k then j else j + 1;
    assert prev[Nth(order, hd, j')] == Nth(order, hd, j' - 1);
  }

  lemma UnlinkLinked(next: seq<nat>, prev: seq<nat>, order: seq<nat>, hd: nat, k: nat)
    requires Linked(next, prev, order, hd) && k < |order|
    ensures next[order[k]] < |prev| && prev[order[k]] < |next|
    ensures var b := order[k];
            Linked(next[prev[b] := next[b]], prev[next[b] := prev[b]], Without(order, k), hd)
  {
    var b, r := order[k], Without(order, k);
    assert Nth(order, hd, k) == b;
    assert next[b] == Nth(order, hd, k + 1) && prev[b] == Nth(order, hd, k - 1);
    WithoutDistinct(order, hd, k);
    var n', p' := next[prev[b] := next[b]], prev[next[b] := prev[b]];
    forall j | -1 <= j < |r| ensures n'[Nth(r, hd, j)] == Nth(r, hd, j + 1) {
      UnlinkNext(next, prev, order, hd, k, j);
    }
    forall j | 0 <= j <= |r| ensures p'[Nth(r, hd, j)] == Nth(r, hd, j - 1) {
      UnlinkPrev(next, prev, order, hd, k, j);
    }
  }

  /** A buffer nobody uses any more has moved to the head of the list. */
  ghost predicate Moved(order: seq<nat>, i: nat, idle: bool, order': seq<nat>) {
    i in order && order' == if idle then ToFront(order, Position(order, i)) else order
  }

  // ------------------------------------------------------------- the cache

  class BufCache {
    const buf: array<Buf>
    const next: array<nat>   // index buf.Length is the list head
    const prev: array<nat>
    var disk: Disk           // the device behind virtio_disk_rw

    ghost var order: seq<nat>
    ghost var refs: map<nat, nat>
    ghost var pins: set<nat>
    ghost var latest: Disk
    ghost var trace: seq<Disk>   // what the device has held, write by write

    ghost function State(): (c: Cache)
      reads this, buf
    {
      Cache(buf[..], order, disk, refs, pins, latest)
    }

    ghost predicate Valid()
      reads this, buf, next, prev
    {
      && next != prev && Shape(State())
      && forall k: int {:trigger Asked(k)} :: Asked(k) ==> Linked(next[..], prev[..], order, buf.Length) && Inv(State())
    }

    lemma ValidIs()
      requires Valid()
      ensures Linked(next[..], prev[..], order, buf.Length) && Inv(State())
    {
      assert Asked(0);
    }

    /** The sleep-lock of block `bno` is free, so acquiresleep returns at once. */
    ghost predicate Unlocked(bno: nat)
      reads buf
    {
      forall i :: 0 <= i < buf.Length && buf[i].Caches(bno) ==> buf[i].holder == None
    }

    /** binit, over a device holding `d`. */
    constructor (n: nat, d: Disk)
      ensures Valid() && fresh(buf) && fresh(next) && fresh(prev)
      ensures buf.Length == n && disk == d && trace == [d] && Initial(State())
    {
      buf := new Buf[n](_ => Buf(0, 0, false, 0, seq(BWORDS, _ => 0), None));
      next := new nat[n + 1](_ => n);
      prev := new nat[n + 1](_ => n);
      disk := d;
      order, refs, pins, latest, trace := [], map[], {}, d, [d];
      new;
      var b := 0;
      while b < n
        invariant 0 <= b <= n
        invariant Linked(next[..], prev[..], order, n) && |order| == b
        invariant forall k :: 0 <= k < b ==> order[k] < b
        invariant forall i :: 0 <= i < b ==> i in order
        invariant buf.Length == n && disk == d && refs == map[] && pins == {} && latest == d && trace == [d]
        invariant forall i :: 0 <= i < n ==> buf[i] == Buf(0, 0, false, 0, seq(BWORDS, _ => 0), None)
      {
        PushLinked(next[..], prev[..], order, n, b);
        ghost var was := order;
        PushFront(b);
        assert forall i :: i in order <==> i == b || i in was;
        b := b + 1;
      }
      assert State().bufs == buf[..];
      InitialInv(State());
    }

    /** Link `b` in just after the list head. */
    method PushFront(b: nat)
      requires next != prev && Linked(next[..], prev[..], order, buf.Length) && b < buf.Length && b !in order
      modifies next, prev, this`order
      ensures order == [b] + old(order)
      ensures Linked(next[..], prev[..], order, buf.Length)
    {
      var hd := buf.Length;
      PushLinked(next[..], prev[..], order, hd, b);
      next[b] := next[hd];
      prev[b] := hd;
      prev[next[hd]] := b;
      next[hd] := b;
      order := [b] + order;
      assert next[..] == old(next[..][b := next[hd]][hd := b]);
      assert prev[..] == old(prev[..][b := hd][next[hd] := b]);
    }

    /** Take `b` off the list. */
    method Unlink(b: nat)
      requires next != prev && Linked(next[..], prev[..], order, buf.Length) && b in order
      modifies next, prev, this`order
      ensures var k := Position(old(order), b);
              order == Without(old(order), k)
      ensures Linked(next[..], prev[..], order, buf.Length)
    {
      ghost var k := Position(order, b);
      UnlinkLinked(next[..], prev[..], order, buf.Length, k);
      prev[next[b]] := prev[b];
      next[prev[b]] := next[b];
      order := Without(order, k);
      assert next[..] == old(next[..][prev[b] := next[b]]);
      assert prev[..] == old(prev[..][next[b] := prev[b]]);
    }

    /** bget: take a reference, then the sleep-lock; -1 is the panic "no buffers". */
    method Bget(h: nat, bno: nat) returns (i: int)
      requires Valid() && h !in refs && bno < |disk| && Unlocked(bno)
      modifies this`refs, buf
      ensures Valid()
      ensures i < 0 <==> !old(Enabled(State(), Get(h, bno)))
      ensures i < 0 ==> State() == old(State())
      ensures i >= 0 ==>
                var c := old(Apply(State(), Get(h, bno)));
                Shape(c) && Enabled(c, Lock(h)) && State() == Apply(c, Lock(h)) && refs[h] == i
    {
      i := Reference(h, bno);
      if i >= 0 {
        Acquiresleep(h, i);
      }
    }

    method Acquiresleep(h: nat, i: nat)
      requires Valid() && h in refs && refs[h] == i && Enabled(State(), Lock(h))
      modifies buf
      ensures Valid() && State() == old(Apply(State(), Lock(h)))
    {
      ValidIs();
      ghost var c := State();
      StepInv(c, Lock(h));
      buf[i] := buf[i].(holder := Some(h));
      assert State() == Apply(c, Lock(h));
    }

    /** The critical section of bget. */
    method Reference(h: nat, bno: nat) returns (i: int)
      requires Valid() && h !in refs && bno < |disk|
      modifies this`refs, buf
      ensures Valid()
      ensures i < 0 <==> !old(Enabled(State(), Get(h, bno)))
      ensures i < 0 ==> State() == old(State())
      ensures i >= 0 ==> State() == old(Apply(State(), Get(h, bno))) && refs[h] == i
      ensures i >= 0 && old(Unlocked(bno)) ==> i < buf.Length && buf[i].holder == None
    {
      ValidIs();
      i := Scan(bno);
      if i >= 0 {
        Hit(h, bno, i);
      } else {
        i := ScanFree();
        if i >= 0 {
          Recycle(h, bno, i);
        }
      }
    }

    method Hit(h: nat, bno: nat, i: nat)
      requires Valid() && Enabled(State(), Get(h, bno)) && Cached(buf[..], order, bno, 0) >= 0
      requires i == order[Cached(buf[..], order, bno, 0)]
      modifies this`refs, buf
      ensures Valid() && State() == old(Apply(State(), Get(h, bno))) && refs[h] == i
      ensures buf[i].holder == old(buf[i].holder)
    {
      ValidIs();
      ghost var c := State();
      StepInv(c, Get(h, bno));
      buf[i] := buf[i].(refcnt := buf[i].refcnt + 1);
      refs := refs[h := i];
      assert State() == Apply(c, Get(h, bno));
    }

    method Recycle(h: nat, bno: nat, i: nat)
      requires Valid() && Enabled(State(), Get(h, bno)) && Cached(buf[..], order, bno, 0) < 0
      requires i == order[Victim(buf[..], order, |order|)]
      modifies this`refs, buf
      ensures Valid() && State() == old(Apply(State(), Get(h, bno))) && refs[h] == i && buf[i].holder == None
    {
      ValidIs();
      ghost var c := State();
      FreeIsIdle(c, i);
      StepInv(c, Get(h, bno));
      buf[i] := buf[i].(dev := ROOTDEV, blockno := bno, valid := false, refcnt := 1);
      refs := refs[h := i];
      assert State() == Apply(c, Get(h, bno));
    }

    /** Handle `h` has block `bno` locked and filled in buffer `i`. */
    ghost predicate Has(h: nat, i: int, bno: nat)
      reads this, buf
    {
      && h in refs && refs[h] == i && i < buf.Length
      && buf[i].Caches(bno) && buf[i].valid && buf[i].holder == Some(h)
    }

    /** bread: a locked buffer with the block's latest contents. */
    method Bread(h: nat, bno: nat) returns (i: int)
      requires Valid() && h !in refs && bno < |disk| && Unlocked(bno)
      modifies this`refs, buf
      ensures Valid()
      ensures |pins| + |old(refs)| < buf.Length ==> i >= 0
      ensures i < 0 ==> State() == old(State())
      ensures i >= 0 ==>
                && refs == old(refs)[h := i] && Has(h, i, bno) && buf[i].data == latest[bno]
                && (buf[i].data == disk[bno] || i in pins)
                && (i in pins || i in old(refs).Values ==> old(buf[i].Caches(bno)))
      ensures forall j :: 0 <= j < buf.Length && j != i ==> buf[j] == old(buf[j])
    {
      i := Lookup(h, bno);
      if i < 0 {
        return;
      }
      if !buf[i].valid {
        FillBuf(h, i);
      }
      Coherent(i);
    }

    /** A filled buffer that somebody holds has the block's latest contents. */
    lemma Coherent(i: nat)
      requires Valid() && i < buf.Length && buf[i].dev == ROOTDEV && buf[i].valid
      ensures buf[i].blockno < |disk| && |latest| == |disk| && buf[i].data == latest[buf[i].blockno]
    {
      ValidIs();
      assert BufCoherent(State(), i);
    }

    /** Only a held buffer is locked. */
    lemma FreeToRead(bno: nat)
      requires Valid()
      requires forall h :: h in refs && refs[h] < buf.Length ==> !buf[refs[h]].Caches(bno)
      ensures Unlocked(bno)
    {
      ValidIs();
    }

    /** bget, with what it says about the buffer found. */
    method Lookup(h: nat, bno: nat) returns (i: int)
      requires Valid() && h !in refs && bno < |disk| && Unlocked(bno)
      modifies this`refs, buf
      ensures Valid()
      ensures |pins| + |old(refs)| < buf.Length ==> i >= 0
      ensures i < 0 ==> State() == old(State())
      ensures i >= 0 ==>
                && refs == old(refs)[h := i] && i < buf.Length && buf[i].Caches(bno) && buf[i].holder == Some(h)
                && (buf[i].valid ==> buf[i].data == disk[bno] || i in pins)
                && (i in pins ==> buf[i].valid)
                && (i in pins || i in old(refs).Values ==> old(buf[i].Caches(bno)))
      ensures forall j :: 0 <= j < buf.Length && j != i ==> buf[j] == old(buf[j])
    {
      ValidIs();
      ghost var c := State();
      if |pins| + |refs| < buf.Length {
        RoomToGet(c, h, bno);
      }
      i := Bget(h, bno);
      if i >= 0 {
        FoundOrFree(c, h, bno);
        assert BufCoherent(c, i);
      }
    }

    /** bread's disk read. */
    method FillBuf(h: nat, i: nat)
      requires Valid() && h in refs && refs[h] == i && Enabled(State(), Fill(h))
      modifies buf
      ensures Valid() && State() == old(Apply(State(), Fill(h)))
      ensures buf[i] == old(buf[i]).(data := disk[buf[i].blockno], valid := true)
      ensures forall j :: 0 <= j < buf.Length && j != i ==> buf[j] == old(buf[j])
    {
      ValidIs();
      ghost var c := State();
      StepInv(c, Fill(h));
      buf[i] := buf[i].(data := disk[buf[i].blockno], valid := true);
      assert State() == Apply(c, Fill(h));
    }

    /** The holder stores `x` into b->data. */
    method Store(h: nat, i: nat, bno: nat, x: Block)
      requires Valid() && Has(h, i, bno)
      modifies this`latest, buf
      ensures Valid() && Has(h, i, bno)
      ensures buf[i] == old(buf[i]).(data := x) && latest == old(latest)[bno := x]
      ensures forall j :: 0 <= j < buf.Length && j != i ==> buf[j] == old(buf[j])
    {
      ValidIs();
      ghost var c := State();
      StepInv(c, Modify(h, x));
      latest := latest[buf[i].blockno := x];
      buf[i] := buf[i].(data := x);
      assert State() == Apply(c, Modify(h, x));
    }

    /** bwrite: one block write to the device. */
    method Bwrite(h: nat, i: nat, bno: nat)
      requires Valid() && Has(h, i, bno)
      modifies this`disk, this`trace
      ensures Valid() && disk == old(disk)[bno := buf[i].data] && trace == old(trace) + [disk]
    {
      ValidIs();
      ghost var c := State();
      StepInv(c, Write(h));
      disk := disk[buf[i].blockno := buf[i].data];
      trace := trace + [disk];
      assert State() == Apply(c, Write(h));
    }

    /** brelse: unlock, drop the reference, and move an unused buffer to the head of the list. */
    method Brelse(h: nat, i: nat, bno: nat)
      requires Valid() && Has(h, i, bno) && (buf[i].data == disk[bno] || i in pins)
      modifies this`refs, this`order, buf, next, prev
      ensures Valid()
      ensures refs == old(refs) - {h}
      ensures forall j :: 0 <= j < buf.Length && j != i ==> buf[j] == old(buf[j])
      ensures buf[i] == old(buf[i]).(refcnt := old(buf[i].refcnt) - 1, holder := None)
      ensures Moved(old(order), i, buf[i].refcnt == 0, order)
    {
      Releasesleep(h, i);
      Drop(h, i);
    }

    /** The buffer's sleep-lock becomes free. */
    method Releasesleep(h: nat, i: nat)
      requires Valid() && h in refs && refs[h] == i && Enabled(State(), Unlock(h))
      modifies buf
      ensures Valid() && State() == old(Apply(State(), Unlock(h)))
    {
      ValidIs();
      ghost var c := State();
      StepInv(c, Unlock(h));
      buf[i] := buf[i].(holder := None);
      assert State() == Apply(c, Unlock(h));
    }

    /** The critical section of brelse. */
    method Drop(h: nat, i: nat)
      requires Valid() && h in refs && refs[h] == i && Enabled(State(), Put(h))
      modifies this`refs, this`order, buf, next, prev
      ensures Valid() && State() == old(Apply(State(), Put(h)))
    {
      ValidIs();
      ghost var c := State();
      StepInv(c, Put(h));
      assert i in order;
      buf[i] := buf[i].(refcnt := buf[i].refcnt - 1);
      refs := refs - {h};
      if buf[i].refcnt == 0 {
        MoveToFront(i);
      }
      assert State() == Apply(c, Put(h));
    }

    method MoveToFront(b: nat)
      requires next != prev && Linked(next[..], prev[..], order, buf.Length) && b in order
      modifies next, prev, this`order
      ensures order == ToFront(old(order), Position(old(order), b))
      ensures Linked(next[..], prev[..], order, buf.Length)
    {
      WithoutDistinct(order, buf.Length, Position(order, b));
      Unlink(b);
      PushFront(b);
    }

    /** bpin, called by log_write for a block new to the log. */
    method Bpin(h: nat, i: nat, bno: nat)
      requires Valid() && Has(h, i, bno) && i !in pins
      modifies this`pins, buf
      ensures Valid() && Has(h, i, bno)
      ensures pins == old(pins) + {i} && buf[i] == old(buf[i]).(refcnt := old(buf[i].refcnt) + 1)
      ensures forall j :: 0 <= j < buf.Length && j != i ==> buf[j] == old(buf[j])
    {
      ValidIs();
      ghost var c := State();
      StepInv(c, Pin(h));
      buf[i] := buf[i].(refcnt := buf[i].refcnt + 1);
      pins := pins + {i};
      assert State() == Apply(c, Pin(h));
    }

    /** bunpin, called by install_trans after the home block is on disk. */
    method Bunpin(h: nat, i: nat, bno: nat)
      requires Valid() && Has(h, i, bno) && i in pins
      modifies this`pins, buf
      ensures Valid() && Has(h, i, bno)
      ensures pins == old(pins) - {i} && buf[i] == old(buf[i]).(refcnt := old(buf[i].refcnt) - 1)
      ensures forall j :: 0 <= j < buf.Length && j != i ==> buf[j] == old(buf[j])
    {
      ValidIs();
      ghost var c := State();
      StepInv(c, Unpin(h));
      buf[i] := buf[i].(refcnt := buf[i].refcnt - 1);
      pins := pins - {i};
      assert State() == Apply(c, Unpin(h));
    }

    /** memmove into a held buffer and bwrite it. */
    method Overwrite(h: nat, i: nat, bno: nat, x: Block)
      requires Valid() && Has(h, i, bno)
      modifies this`disk, this`trace, this`latest, buf
      ensures Valid() && Has(h, i, bno) && trace == old(trace) + [disk]
      ensures disk == old(disk)[bno := x] && latest == old(latest)[bno := x] && buf[i].data == x
      ensures forall j :: 0 <= j < buf.Length && j != i ==> buf[j] == old(buf[j])
    {
      Store(h, i, bno, x);
      Bwrite(h, i, bno);
    }

    /** bread two blocks, `a` first; false is bget's panic. */
    method ReadBoth(a: nat, b: nat) returns (ok: bool, i: nat, j: nat)
      requires Valid() && refs == map[] && a != b && a < |disk| && b < |disk|
      modifies this`refs, buf
      ensures |pins| + 1 < buf.Length ==> ok
      ensures ok ==>
                && Valid() && refs.Keys == {0, 1} && Has(0, i, a) && Has(1, j, b) && i != j
                && buf[i].data == latest[a] && buf[j].data == latest[b]
                && (buf[i].data == disk[a] || i in pins) && (buf[j].data == disk[b] || j in pins)
      ensures forall k :: k in pins && 0 <= k < buf.Length ==> buf[k].blockno == old(buf[k].blockno)
    {
      FreeToRead(a);
      var x := Bread(0, a);
      if x < 0 {
        return false, 0, 0;
      }
      assert x in refs.Values by { assert refs[0] == x; }
      FreeToRead(b);
      var y := Bread(1, b);
      if y < 0 {
        return false, 0, 0;
      }
      return true, x, y;
    }

    /** brelse both buffers, `p` first. */
    method ReleaseBoth(p: nat, i: nat, a: nat, q: nat, j: nat, b: nat)
      requires Valid() && p != q && refs.Keys == {p, q} && i != j && Has(p, i, a) && Has(q, j, b)
      requires buf[i].data == disk[a] || i in pins
      requires buf[j].data == disk[b] || j in pins
      modifies this`refs, this`order, buf, next, prev
      ensures Valid() && refs == map[]
      ensures forall k :: 0 <= k < buf.Length ==> buf[k].blockno == old(buf[k].blockno)
    {
      Brelse(p, i, a);
      Brelse(q, j, b);
      assert refs.Keys == {};
    }

    /** One turn of write_log: the cached block `home` goes to log block `log`, in cache and on disk. */
    method CopyToLog(log: nat, home: nat) returns (ok: bool)
      requires Valid() && refs == map[] && log != home && log < |disk| && home < |disk|
      modifies this`refs, this`order, this`latest, this`disk, this`trace, buf, next, prev
      ensures |old(pins)| + 1 < buf.Length ==> ok
      ensures trace == if ok then old(trace) + [disk] else old(trace)
      ensures !ok ==> disk == old(disk)
      ensures ok ==>
                && Valid() && refs == map[]
                && latest == old(latest)[log := old(latest)[home]]
                && disk == old(disk)[log := old(latest)[home]]
      ensures forall k :: k in pins && 0 <= k < buf.Length ==> buf[k].blockno == old(buf[k].blockno)
    {
      var i, j;
      ok, i, j := ReadBoth(log, home);
      if ok {
        Overwrite(0, i, log, buf[j].data);
        ReleaseBoth(1, j, home, 0, i, log);
      }
    }

    lemma PinsDiffer(i: nat, j: nat)
      requires Valid() && i in pins && j in pins && i != j
      ensures i < buf.Length && j < buf.Length && buf[i].blockno != buf[j].blockno
    {
      ValidIs();
      assert UseInv(State()) && UniqueInv(State());
    }

    /** The buffer pinned for a block is the one bread returns. */
    lemma PinnedIs(h: nat, j: nat, bno: nat, k: nat)
      requires Valid() && Has(h, j, bno) && k in pins && k < buf.Length && buf[k].blockno == bno
      ensures j == k
    {
      ValidIs();
      assert UseInv(State()) && UniqueInv(State());
    }

    /** One turn of install_trans in recovery: log block `log` goes to its home. */
    method InstallHome(log: nat, home: nat) returns (ok: bool)
      requires Valid() && refs == map[] && log != home && log < |disk| && home < |disk|
      modifies this`refs, this`order, this`latest, this`disk, this`trace, buf, next, prev
      ensures |old(pins)| + 1 < buf.Length ==> ok
      ensures trace == if ok then old(trace) + [disk] else old(trace)
      ensures !ok ==> disk == old(disk)
      ensures ok ==>
                && Valid() && refs == map[]
                && latest == old(latest)[home := old(latest)[log]]
                && disk == old(disk)[home := old(latest)[log]]
      ensures forall k :: k in pins && 0 <= k < buf.Length ==> buf[k].blockno == old(buf[k].blockno)
    {
      var i, j;
      ok, i, j := ReadBoth(log, home);
      if ok {
        Overwrite(1, j, home, buf[i].data);
        ReleaseBoth(0, i, log, 1, j, home);
      }
    }

    /** One turn of install_trans in a commit: the home buffer, pinned as `k`, is also unpinned. */
    method InstallAndUnpin(log: nat, home: nat, ghost k: nat) returns (ok: bool)
      requires Valid() && refs == map[] && log != home && log < |disk| && home < |disk|
      requires k in pins && k < buf.Length && buf[k].blockno == home
      modifies this`refs, this`order, this`latest, this`disk, this`trace, this`pins, buf, next, prev
      ensures |old(pins)| + 1 < buf.Length ==> ok
      ensures trace == if ok then old(trace) + [disk] else old(trace)
      ensures !ok ==> disk == old(disk)
      ensures ok ==>
                && Valid() && refs == map[] && pins == old(pins) - {k}
                && latest == old(latest)[home := old(latest)[log]]
                && disk == old(disk)[home := old(latest)[log]]
      ensures forall k :: k in old(pins) && 0 <= k < buf.Length ==> buf[k].blockno == old(buf[k].blockno)
    {
      var i, j;
      ok, i, j := ReadBoth(log, home);
      if ok {
        PinnedIs(1, j, home, k);
        Overwrite(1, j, home, buf[i].data);
        Bunpin(1, j, home);
        ReleaseBoth(0, i, log, 1, j, home);
      }
    }

    /** bget's first loop: is the block already cached? */
    method Scan(bno: nat) returns (i: int)
      requires Valid()
      ensures var k := Cached(buf[..], order, bno, 0);
              i == if k < 0 then -1 else order[k] as int
    {
      ValidIs();
      var hd := buf.Length;
      var b := next[hd];
      ghost var k := 0;
      assert next[Nth(order, hd, -1)] == Nth(order, hd, 0);
      while b != hd
        invariant 0 <= k <= |order| && b == Nth(order, hd, k)
        invariant Cached(buf[..], order, bno, 0) == Cached(buf[..], order, bno, k)
        decreases |order| - k
      {
        if buf[b].dev == ROOTDEV && buf[b].blockno == bno {
          return b;
        }
        assert next[Nth(order, hd, k)] == Nth(order, hd, k + 1);
        b := next[b];
        k := k + 1;
      }
      return -1;
    }

    /** bget's second loop: the least recently used unused buffer. */
    method ScanFree() returns (i: int)
      requires Valid()
      ensures var k := Victim(buf[..], order, |order|);
              i == if k < 0 then -1 else order[k] as int
    {
      ValidIs();
      var hd := buf.Length;
      var b := prev[hd];
      ghost var k := |order|;
      assert prev[Nth(order, hd, |order|)] == Nth(order, hd, |order| - 1);
      while b != hd
        invariant 0 <= k <= |order| && b == Nth(order, hd, k - 1)
        invariant Victim(buf[..], order, |order|) == Victim(buf[..], order, k)
        decreases k
      {
        if buf[b].refcnt == 0 {
          return b;
        }
        assert prev[Nth(order, hd, k - 1)] == Nth(order, hd, k - 2);
        b := prev[b];
        k := k - 1;
      }
      return -1;
    }
  }
}
