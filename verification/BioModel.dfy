/**
 * The buffer cache of kernel/bio.c as a concurrent state machine.
 *
 * Every bread in progress, by any process, is a handle; handles take the steps of
 * bget, bread, bwrite, brelse, bpin and bunpin in any interleaving, one critical
 * section at a time. `latest` records, per block, what the last holder stored.
 */
module BioModel {
  import opened Common
  import opened DiskTypes
  import opened Sets

  const ROOTDEV: nat := 1

  /** struct buf; `holder` is the sleep-lock's owner. */
  datatype Buf = Buf(dev: nat, blockno: nat, valid: bool, refcnt: int, data: Block, holder: Option<nat>) {
    predicate Caches(bno: nat) {
      dev == ROOTDEV && blockno == bno
    }
  }

  datatype Cache = Cache(
    bufs: seq<Buf>,
    order: seq<nat>,          // the list through next, most recently used first
    disk: Disk,
    refs: map<nat, nat>,      // handle -> buffer it holds a reference on
    pins: set<nat>,           // buffers pinned by the log
    latest: Disk)

  datatype Event =
    | Get(h: nat, bno: nat)      // bget's critical section
    | Lock(h: nat)               // acquiresleep succeeds
    | Fill(h: nat)               // bread reads the disk
    | Modify(h: nat, x: Block)   // the holder stores into b->data
    | Write(h: nat)              // bwrite
    | Pin(h: nat)                // log_write: bpin unless already logged
    | Unpin(h: nat)              // install_trans: bunpin
    | Unlock(h: nat)             // brelse, first half
    | Put(h: nat)                // brelse, second half

  // ------------------------------------------------------- bget's two scans

  /** First buffer in list order that caches `bno`: an index into `order`. */
  function Cached(bufs: seq<Buf>, order: seq<nat>, bno: nat, k: nat): (r: int)
    requires k <= |order| && forall j :: 0 <= j < |order| ==> order[j] < |bufs|
    ensures -1 <= r < |order|
    ensures r >= 0 ==> k <= r && bufs[order[r]].Caches(bno)
    ensures forall j :: k <= j < (if r < 0 then |order| else r) ==> !bufs[order[j]].Caches(bno)
    decreases |order| - k
  {
    if k == |order| then -1
    else if bufs[order[k]].Caches(bno) then k
    else Cached(bufs, order, bno, k + 1)
  }

  /** Least recently used free buffer among the first `k` of the list. */
  function Victim(bufs: seq<Buf>, order: seq<nat>, k: nat): (r: int)
    requires k <= |order| && forall j :: 0 <= j < |order| ==> order[j] < |bufs|
    ensures -1 <= r < k
    ensures r >= 0 ==> bufs[order[r]].refcnt == 0
    ensures forall j :: r < j < k ==> bufs[order[j]].refcnt != 0
  {
    if k == 0 then -1
    else if bufs[order[k - 1]].refcnt == 0 then k - 1
    else Victim(bufs, order, k - 1)
  }

  ghost predicate OrderOk(order: seq<nat>, n: nat) {
    && |order| == n
    && (forall j :: 0 <= j < n ==> order[j] < n)
    && (forall j, k :: 0 <= j < k < n ==> order[j] != order[k])
    && (forall i :: 0 <= i < n ==> i in order)
  }

  /** Move the buffer at list position `k` to the head of the list. */
  function ToFront(order: seq<nat>, k: nat): (r: seq<nat>)
    requires k < |order|
  {
    [order[k]] + (order[..k] + order[k + 1..])
  }

  lemma ToFrontOk(order: seq<nat>, k: nat, n: nat)
    requires OrderOk(order, n) && k < n
    ensures OrderOk(ToFront(order, k), n)
  {
    var r := ToFront(order, k);
    forall i | 0 <= i < n ensures i in r {
      assert i in order;
      var j :| 0 <= j < n && order[j] == i;
      assert r[if j == k then 0 else if j < k then j + 1 else j] == i;
    }
  }

  function Position(order: seq<nat>, i: nat): (k: nat)
    requires i in order
    ensures k < |order| && order[k] == i
  {
    if order[0] == i then 0 else 1 + Position(order[1..], i)
  }

  // --------------------------------------------------------------- machine

  ghost predicate Shape(c: Cache) {
    && OrderOk(c.order, |c.bufs|)
    && |c.latest| == |c.disk|
    && (forall h :: h in c.refs ==> c.refs[h] < |c.bufs|)
    && (forall i :: 0 <= i < |c.bufs| && c.bufs[i].dev == ROOTDEV ==> c.bufs[i].blockno < |c.disk|)
  }

  ghost predicate Holds(c: Cache, h: nat)
    requires Shape(c)
  {
    h in c.refs && c.bufs[c.refs[h]].holder == Some(h) && c.bufs[c.refs[h]].dev == ROOTDEV
  }

  ghost predicate Clean(c: Cache, i: nat)
    requires Shape(c) && i < |c.bufs| && c.bufs[i].dev == ROOTDEV
  {
    c.bufs[i].data == c.disk[c.bufs[i].blockno]
  }

  /** When each step may happen; the last lines are the rules clients must keep. */
  ghost predicate Enabled(c: Cache, e: Event)
    requires Shape(c)
  {
    match e
    case Get(h, bno) =>
      h !in c.refs && bno < |c.disk|
      && (Cached(c.bufs, c.order, bno, 0) >= 0 || Victim(c.bufs, c.order, |c.order|) >= 0)
    case Lock(h) => h in c.refs && c.bufs[c.refs[h]].holder == None
    case Fill(h) => Holds(c, h) && !c.bufs[c.refs[h]].valid
    case Modify(h, x) => Holds(c, h) && c.bufs[c.refs[h]].valid
    case Write(h) => Holds(c, h) && c.bufs[c.refs[h]].valid
    case Pin(h) => Holds(c, h) && c.bufs[c.refs[h]].valid
    case Unpin(h) => Holds(c, h) && c.refs[h] in c.pins
    case Unlock(h) =>
      Holds(c, h) && (c.bufs[c.refs[h]].valid ==> Clean(c, c.refs[h]) || c.refs[h] in c.pins)
    case Put(h) => h in c.refs && c.bufs[c.refs[h]].holder != Some(h)
  }

  function SetBuf(c: Cache, i: nat, b: Buf): (c': Cache)
    requires i < |c.bufs|
  {
    c.(bufs := c.bufs[i := b])
  }

  ghost function Apply(c: Cache, e: Event): (c': Cache)
    requires Shape(c) && Enabled(c, e)
  {
    match e
    case Get(h, bno) =>
      var k := Cached(c.bufs, c.order, bno, 0);
      if k >= 0 then
        var i := c.order[k];
        SetBuf(c, i, c.bufs[i].(refcnt := c.bufs[i].refcnt + 1)).(refs := c.refs[h := i])
      else
        var i := c.order[Victim(c.bufs, c.order, |c.order|)];
        SetBuf(c, i, c.bufs[i].(dev := ROOTDEV, blockno := bno, valid := false, refcnt := 1)).(refs := c.refs[h := i])
    case Lock(h) =>
      var i := c.refs[h];
      SetBuf(c, i, c.bufs[i].(holder := Some(h)))
    case Fill(h) =>
      var i := c.refs[h];
      SetBuf(c, i, c.bufs[i].(data := c.disk[c.bufs[i].blockno], valid := true))
    case Modify(h, x) =>
      var i := c.refs[h];
      SetBuf(c, i, c.bufs[i].(data := x)).(latest := c.latest[c.bufs[i].blockno := x])
    case Write(h) =>
      var i := c.refs[h];
      c.(disk := c.disk[c.bufs[i].blockno := c.bufs[i].data])
    case Pin(h) =>
      var i := c.refs[h];
      if i in c.pins then c
      else SetBuf(c, i, c.bufs[i].(refcnt := c.bufs[i].refcnt + 1)).(pins := c.pins + {i})
    case Unpin(h) =>
      var i := c.refs[h];
      SetBuf(c, i, c.bufs[i].(refcnt := c.bufs[i].refcnt - 1)).(pins := c.pins - {i})
    case Unlock(h) =>
      var i := c.refs[h];
      SetBuf(c, i, c.bufs[i].(holder := None))
    case Put(h) =>
      var i := c.refs[h];
      var c1 := SetBuf(c, i, c.bufs[i].(refcnt := c.bufs[i].refcnt - 1)).(refs := c.refs - {h});
      if c1.bufs[i].refcnt == 0 then c1.(order := ToFront(c.order, Position(c.order, i))) else c1
  }

  /** binit: every buffer is (dev 0, block 0), invalid, free. */
  ghost predicate Initial(c: Cache) {
    && OrderOk(c.order, |c.bufs|)
    && c.latest == c.disk && c.refs == map[] && c.pins == {}
    && forall i :: 0 <= i < |c.bufs| ==>
         c.bufs[i].dev == 0 && !c.bufs[i].valid && c.bufs[i].refcnt == 0 && c.bufs[i].holder == None
  }

  // ------------------------------------------------------------ invariants

  ghost function Holders(refs: map<nat, nat>, i: nat): set<nat> {
    set h | h in refs && refs[h] == i
  }

  ghost predicate CountInv(c: Cache) {
    forall i :: 0 <= i < |c.bufs| ==>
      c.bufs[i].refcnt == |Holders(c.refs, i)| + (if i in c.pins then 1 else 0)
  }

  ghost predicate LockInv(c: Cache) {
    forall i :: 0 <= i < |c.bufs| && c.bufs[i].holder.Some? ==>
      c.bufs[i].holder.value in c.refs && c.refs[c.bufs[i].holder.value] == i
  }

  /** Referenced and pinned buffers belong to the file system's device. */
  ghost predicate UseInv(c: Cache) {
    && (forall h :: h in c.refs && c.refs[h] < |c.bufs| ==> c.bufs[c.refs[h]].dev == ROOTDEV)
    && (forall i :: i in c.pins ==> i < |c.bufs| && c.bufs[i].dev == ROOTDEV && c.bufs[i].valid)
  }

  /** Each block has at most one buffer. */
  ghost predicate UniqueInv(c: Cache) {
    forall i, j :: 0 <= i < j < |c.bufs| && c.bufs[i].dev == ROOTDEV && c.bufs[j].dev == ROOTDEV ==>
      c.bufs[i].blockno != c.bufs[j].blockno
  }

  ghost predicate BufCoherent(c: Cache, i: nat)
    requires Shape(c) && i < |c.bufs|
  {
    c.bufs[i].dev == ROOTDEV && c.bufs[i].valid ==>
      && c.bufs[i].data == c.latest[c.bufs[i].blockno]
      && (Clean(c, i) || c.bufs[i].holder.Some? || i in c.pins)
  }

  ghost predicate CachedSomewhere(c: Cache, b: nat) {
    exists i :: 0 <= i < |c.bufs| && c.bufs[i].Caches(b) && c.bufs[i].valid
  }

  /** A block differs from disk only in a buffer that is locked or pinned, and nothing newer is lost. */
  ghost predicate CoherentInv(c: Cache)
    requires Shape(c)
  {
    && (forall i :: 0 <= i < |c.bufs| ==> BufCoherent(c, i))
    && (forall b :: 0 <= b < |c.disk| && !CachedSomewhere(c, b) ==> c.disk[b] == c.latest[b])
  }

  ghost predicate Inv(c: Cache) {
    Shape(c) && CountInv(c) && LockInv(c) && UseInv(c) && UniqueInv(c) && CoherentInv(c)
  }

  // ---------------------------------------------------- one step at a time

  lemma HoldersAdd(refs: map<nat, nat>, h: nat, i: nat, j: nat)
    requires h !in refs
    ensures |Holders(refs[h := i], j)| == |Holders(refs, j)| + (if i == j then 1 else 0)
  {
    if i == j {
      assert Holders(refs[h := i], j) == Holders(refs, j) + {h};
    } else {
      assert Holders(refs[h := i], j) == Holders(refs, j);
    }
  }

  lemma HoldersRemove(refs: map<nat, nat>, h: nat, j: nat)
    requires h in refs
    ensures |Holders(refs - {h}, j)| == |Holders(refs, j)| - (if refs[h] == j then 1 else 0)
  {
    if refs[h] == j {
      assert Holders(refs, j) == Holders(refs - {h}, j) + {h};
    } else {
      assert Holders(refs - {h}, j) == Holders(refs, j);
    }
  }

  /** A buffer with no references has no holder and is not pinned: it is free to recycle. */
  lemma FreeIsIdle(c: Cache, i: nat)
    requires Shape(c) && CountInv(c) && LockInv(c) && i < |c.bufs| && c.bufs[i].refcnt == 0
    ensures i !in c.pins && c.bufs[i].holder == None
    ensures forall h :: h in c.refs ==> c.refs[h] != i
  {
    assert Holders(c.refs, i) == {};
    forall h | h in c.refs ensures c.refs[h] != i {
      assert h in Holders(c.refs, i) <==> c.refs[h] == i;
    }
  }

  /** A buffer that is in use is referenced or pinned. */
  lemma UsedIs(c: Cache, i: nat)
    requires Inv(c) && i < |c.bufs| && c.bufs[i].refcnt != 0
    ensures i in c.pins + c.refs.Values
  {
    if i !in c.pins {
      var h :| h in Holders(c.refs, i);
      assert c.refs[h] == i;
    }
  }

  /** bget finds a buffer whenever fewer are in use than there are. */
  lemma RoomToGet(c: Cache, h: nat, bno: nat)
    requires Inv(c) && h !in c.refs && bno < |c.disk| && |c.pins| + |c.refs| < |c.bufs|
    ensures Enabled(c, Get(h, bno))
  {
    if Victim(c.bufs, c.order, |c.order|) < 0 {
      var all := set k | 0 <= k < |c.order| :: c.order[k];
      Image(c.order, all);
      forall i | i in all ensures i in c.pins + c.refs.Values {
        UsedIs(c, i);
      }
      ValuesSize(c.refs);
      SubsetSize(all, c.pins + c.refs.Values);
      assert false;
    }
  }

  /** bget finds the block's own buffer, or one that nobody references or pins. */
  lemma FoundOrFree(c: Cache, h: nat, bno: nat)
    requires Inv(c) && Enabled(c, Get(h, bno))
    ensures var i := Apply(c, Get(h, bno)).refs[h];
            c.bufs[i].Caches(bno) || (i !in c.pins && i !in c.refs.Values && c.bufs[i].holder == None)
  {
    var i := Apply(c, Get(h, bno)).refs[h];
    if !c.bufs[i].Caches(bno) {
      FreeIsIdle(c, i);
    }
  }

  lemma NotCached(c: Cache, bno: nat)
    requires Shape(c) && Cached(c.bufs, c.order, bno, 0) < 0
    ensures forall i :: 0 <= i < |c.bufs| ==> !c.bufs[i].Caches(bno)
  {
    forall i | 0 <= i < |c.bufs| ensures !c.bufs[i].Caches(bno) {
      assert i in c.order;
    }
  }

  lemma StepShape(c: Cache, e: Event)
    requires Inv(c) && Enabled(c, e)
    ensures Shape(Apply(c, e))
  {
    if e.Put? {
      ToFrontOk(c.order, Position(c.order, c.refs[e.h]), |c.bufs|);
    }
  }

  lemma GetCount(c: Cache, e: Event)
    requires Inv(c) && Enabled(c, e) && e.Get?
    ensures CountInv(Apply(c, e)) && LockInv(Apply(c, e))
  {
    var c' := Apply(c, e);
    var i := c'.refs[e.h];
    if c.bufs[i].refcnt == 0 { FreeIsIdle(c, i); }
    forall j | 0 <= j < |c.bufs|
      ensures c'.bufs[j].refcnt == |Holders(c'.refs, j)| + (if j in c'.pins then 1 else 0)
    {
      HoldersAdd(c.refs, e.h, i, j);
    }
  }

  lemma PutCount(c: Cache, e: Event)
    requires Inv(c) && Enabled(c, e) && e.Put?
    ensures CountInv(Apply(c, e)) && LockInv(Apply(c, e))
  {
    var c' := Apply(c, e);
    forall j | 0 <= j < |c.bufs|
      ensures c'.bufs[j].refcnt == |Holders(c'.refs, j)| + (if j in c'.pins then 1 else 0)
    {
      HoldersRemove(c.refs, e.h, j);
    }
  }

  /** refcnt counts the handles and the log's pin; a locked buffer is referenced by its holder. */
  lemma StepCount(c: Cache, e: Event)
    requires Inv(c) && Enabled(c, e)
    ensures CountInv(Apply(c, e)) && LockInv(Apply(c, e))
  {
    match e
    case Get(_, _) => GetCount(c, e);
    case Put(_) => PutCount(c, e);
    case _ =>
      var c' := Apply(c, e);
      var i := c.refs[e.h];
      assert c'.refs == c.refs;
      assert forall j :: 0 <= j < |c.bufs| && j != i ==> c'.bufs[j] == c.bufs[j];
  }

  lemma GetUse(c: Cache, e: Event)
    requires Inv(c) && Enabled(c, e) && e.Get?
    ensures UseInv(Apply(c, e))
  {
    var c' := Apply(c, e);
    var i := c'.refs[e.h];
    if c.bufs[i].refcnt == 0 { FreeIsIdle(c, i); }
  }

  lemma StepUse(c: Cache, e: Event)
    requires Inv(c) && Enabled(c, e)
    ensures UseInv(Apply(c, e))
  {
    if e.Get? {
      GetUse(c, e);
    } else {
      var c' := Apply(c, e);
      var i := c.refs[e.h];
      forall j | 0 <= j < |c.bufs|
        ensures c'.bufs[j].dev == c.bufs[j].dev && (c.bufs[j].valid ==> c'.bufs[j].valid)
      {
      }
    }
  }

  lemma StepUnique(c: Cache, e: Event)
    requires Inv(c) && Enabled(c, e)
    ensures UniqueInv(Apply(c, e))
  {
    if e.Get? && Cached(c.bufs, c.order, e.bno, 0) < 0 {
      NotCached(c, e.bno);
    }
  }

  /** Only the changed buffer needs a look when neither disk nor latest moves. */
  lemma CoherentUpdate(c: Cache, c': Cache, i: nat)
    requires Shape(c) && CoherentInv(c) && Shape(c') && i < |c.bufs| == |c'.bufs|
    requires c'.disk == c.disk && c'.latest == c.latest
    requires forall j :: 0 <= j < |c.bufs| && j != i ==> c'.bufs[j] == c.bufs[j] && (j in c.pins ==> j in c'.pins)
    requires BufCoherent(c', i)
    requires c.bufs[i].dev == ROOTDEV && c.bufs[i].valid ==>
               || (c'.bufs[i].Caches(c.bufs[i].blockno) && c'.bufs[i].valid)
               || c.disk[c.bufs[i].blockno] == c.latest[c.bufs[i].blockno]
    ensures CoherentInv(c')
  {
    forall j | 0 <= j < |c'.bufs| ensures BufCoherent(c', j) {
      assert BufCoherent(c, j);
    }
    forall b: nat | b < |c.disk| && CachedSomewhere(c, b) ensures CachedSomewhere(c', b) || c.disk[b] == c.latest[b] {
      var j :| 0 <= j < |c.bufs| && c.bufs[j].Caches(b) && c.bufs[j].valid;
      assert j != i ==> c'.bufs[j].Caches(b) && c'.bufs[j].valid;
    }
  }

  /** Recycling loses nothing: the victim is clean. */
  lemma CoherentGet(c: Cache, e: Event)
    requires Inv(c) && Enabled(c, e) && e.Get? && Shape(Apply(c, e))
    ensures CoherentInv(Apply(c, e))
  {
    var c' := Apply(c, e);
    var i := c'.refs[e.h];
    assert BufCoherent(c, i);
    if c.bufs[i].refcnt == 0 { FreeIsIdle(c, i); }
    CoherentUpdate(c, c', i);
  }

  lemma CoherentFill(c: Cache, e: Event)
    requires Inv(c) && Enabled(c, e) && e.Fill? && Shape(Apply(c, e))
    ensures CoherentInv(Apply(c, e))
  {
    var c' := Apply(c, e);
    var i := c.refs[e.h];
    var b := c.bufs[i].blockno;
    assert !CachedSomewhere(c, b);
    CoherentUpdate(c, c', i);
  }

  lemma StillCached(c: Cache, c': Cache)
    requires |c.bufs| == |c'.bufs|
    requires forall i :: 0 <= i < |c.bufs| && c.bufs[i].dev == ROOTDEV && c.bufs[i].valid ==>
               c'.bufs[i].Caches(c.bufs[i].blockno) && c'.bufs[i].valid
    ensures forall b :: CachedSomewhere(c, b) ==> CachedSomewhere(c', b)
  {
  }

  lemma CoherentModify(c: Cache, e: Event)
    requires Inv(c) && Enabled(c, e) && e.Modify? && Shape(Apply(c, e))
    ensures CoherentInv(Apply(c, e))
  {
    var c' := Apply(c, e);
    var i := c.refs[e.h];
    forall j | 0 <= j < |c'.bufs| ensures BufCoherent(c', j) {
      assert BufCoherent(c, j);
      assert j != i && c.bufs[j].dev == ROOTDEV ==> c.bufs[j].blockno != c.bufs[i].blockno;
    }
    assert c'.bufs[i].Caches(c.bufs[i].blockno);
    StillCached(c, c');
  }

  lemma CoherentWrite(c: Cache, e: Event)
    requires Inv(c) && Enabled(c, e) && e.Write? && Shape(Apply(c, e))
    ensures CoherentInv(Apply(c, e))
  {
    var c' := Apply(c, e);
    var i := c.refs[e.h];
    forall j | 0 <= j < |c'.bufs| ensures BufCoherent(c', j) {
      assert BufCoherent(c, j);
    }
    assert c'.bufs[i].Caches(c.bufs[i].blockno);
    StillCached(c, c');
  }

  lemma StepCoherent(c: Cache, e: Event)
    requires Inv(c) && Enabled(c, e) && Shape(Apply(c, e))
    ensures CoherentInv(Apply(c, e))
  {
    match e
    case Get(_, _) => CoherentGet(c, e);
    case Fill(_) => CoherentFill(c, e);
    case Modify(_, _) => CoherentModify(c, e);
    case Write(_) => CoherentWrite(c, e);
    case _ =>
      assert BufCoherent(c, c.refs[e.h]);
      CoherentUpdate(c, Apply(c, e), c.refs[e.h]);
  }

  lemma StepInv(c: Cache, e: Event)
    requires Inv(c) && Enabled(c, e)
    ensures Inv(Apply(c, e))
  {
    StepShape(c, e);
    StepCount(c, e);
    StepUse(c, e);
    StepUnique(c, e);
    StepCoherent(c, e);
  }

  // ------------------------------------------------------------------ runs

  datatype Outcome = Stuck | At(cache: Cache)

  /** The cache after any interleaving `es` of steps of all its users. */
  ghost function Exec(c: Cache, es: seq<Event>): (r: Outcome)
    requires Inv(c)
    ensures r.At? ==> Inv(r.cache)
  {
    if es == [] then At(c)
    else
      var before := Exec(c, es[..|es| - 1]);
      var e := es[|es| - 1];
      if before.At? && Enabled(before.cache, e) then
        StepInv(before.cache, e);
        At(Apply(before.cache, e))
      else Stuck
  }

  lemma InitialInv(c: Cache)
    requires Initial(c)
    ensures Inv(c)
  {
  }

  /** What a user of the cache may rely on. */
  ghost predicate Transparent(k: Cache)
    requires Shape(k)
  {
    // whoever has bread a block sees what was last stored there
    && (forall h :: Holds(k, h) && k.bufs[k.refs[h]].valid ==>
          k.bufs[k.refs[h]].data == k.latest[k.bufs[k.refs[h]].blockno])
    // a block has one buffer
    && (forall i, j, b: nat ::
          0 <= i < |k.bufs| && 0 <= j < |k.bufs| && k.bufs[i].Caches(b) && k.bufs[j].Caches(b) ==> i == j)
    // a buffer that differs from disk is locked or pinned
    && (forall i :: 0 <= i < |k.bufs| && k.bufs[i].dev == ROOTDEV && k.bufs[i].valid && !Clean(k, i) ==>
          k.bufs[i].holder.Some? || i in k.pins)
    // a block with no valid buffer is up to date on disk
    && (forall b :: 0 <= b < |k.disk| && !CachedSomewhere(k, b) ==> k.disk[b] == k.latest[b])
  }

  lemma InvTransparent(k: Cache)
    requires Inv(k)
    ensures Transparent(k)
  {
    forall h | Holds(k, h) && k.bufs[k.refs[h]].valid
      ensures k.bufs[k.refs[h]].data == k.latest[k.bufs[k.refs[h]].blockno]
    {
      assert BufCoherent(k, k.refs[h]);
    }
    forall i | 0 <= i < |k.bufs| && k.bufs[i].dev == ROOTDEV && k.bufs[i].valid && !Clean(k, i)
      ensures k.bufs[i].holder.Some? || i in k.pins
    {
      assert BufCoherent(k, i);
    }
  }

  /** The cache is transparent over every run from binit, whatever the interleaving. */
  lemma CacheTransparent(c: Cache, es: seq<Event>)
    requires Initial(c)
    ensures Inv(c)
    ensures Exec(c, es).At? ==> Transparent(Exec(c, es).cache)
  {
    InitialInv(c);
    if Exec(c, es).At? {
      InvTransparent(Exec(c, es).cache);
    }
  }

  /** Nothing but the holder of a buffer changes what its block reads as. */
  lemma LatestChangesByHolder(c: Cache, e: Event, b: nat)
    requires Inv(c) && Enabled(c, e) && b < |c.disk|
    ensures Apply(c, e).latest[b] != c.latest[b] ==>
              e.Modify? && Holds(c, e.h) && c.bufs[c.refs[e.h]].blockno == b && Apply(c, e).latest[b] == e.x
  {
  }
}
