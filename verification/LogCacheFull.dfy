/** A log that is full, within the rules of log.c, needs one buffer more than there are. */
module LogCacheFull {
  import opened Common
  import opened DiskTypes
  import opened LogCache
  import opened LogCacheInv
  import opened LogCacheRuns
  import opened LogCacheLive
  import BM = BioModel
  import LM = LogModel

  /** The handle of the one thread that logs blocks here. */
  const H: nat := 2

  /** H is the only handle, and its buffer is that of block `b`. */
  ghost predicate Only(c: BM.Cache, b: nat) {
    c.refs.Keys == {H} && BufOf(c, H).Caches(b)
  }

  // ------------------------------------------------- one log_write, step by step

  lemma TakeGet(g: LM.Layout, j: Joint, b: nat) returns (j': Joint)
    requires Inv(g, j) && Quiet(j) && b < g.size && |j.c.pins| < |j.c.bufs|
    ensures Moves(g, j, Cache(BM.Get(H, b)), j') && Inv(g, j') && j' == j.(c := j'.c) && |j'.c.bufs| == |j.c.bufs|
    ensures Only(j'.c, b) && BufOf(j'.c, H).holder == None
  {
    GetRoom(j.c, H, b);
    var e := BM.Get(H, b);
    StepSound(g, j, Cache(e));
    j' := Apply(g, j, Cache(e));
    CacheIs(j.c);
    assert BM.LockInv(j.c);
  }

  lemma TakeLock(g: LM.Layout, j: Joint, b: nat) returns (j': Joint)
    requires Inv(g, j) && Only(j.c, b) && BufOf(j.c, H).holder == None
    ensures Moves(g, j, Cache(BM.Lock(H)), j') && Inv(g, j') && j' == j.(c := j'.c) && |j'.c.bufs| == |j.c.bufs|
    ensures Only(j'.c, b) && BufOf(j'.c, H).holder == Some(H)
  {
    CacheIs(j.c);
    var e := BM.Lock(H);
    StepSound(g, j, Cache(e));
    j' := Apply(g, j, Cache(e));
  }

  lemma TakeFill(g: LM.Layout, j: Joint, b: nat) returns (es: seq<Event>, j': Joint)
    requires Inv(g, j) && Only(j.c, b) && BufOf(j.c, H).holder == Some(H)
    ensures Leads(g, j, es, j') && Inv(g, j') && j' == j.(c := j'.c) && |j'.c.bufs| == |j.c.bufs|
    ensures Only(j'.c, b) && Ready(j'.c, H)
  {
    if BufOf(j.c, H).valid {
      es, j' := [], j;
    } else {
      CacheIs(j.c);
      var e := BM.Fill(H);
      StepSound(g, j, Cache(e));
      j' := Apply(g, j, Cache(e));
      Prepend(g, j, Cache(e), j', [], j');
      es := [Cache(e)] + [];
    }
  }

  lemma TakeStore(g: LM.Layout, j: Joint, b: Word, i: nat, x: Block) returns (j': Joint)
    requires Inv(g, j) && Only(j.c, b) && Ready(j.c, H) && g.Home(b) && j.raw == map[]
    requires j.s.phase.Running? && i < |j.s.active|
    ensures Moves(g, j, Store(H, x, i), j') && Inv(g, j') && |j'.c.bufs| == |j.c.bufs|
    ensures j' == j.(c := j'.c, raw := map[H := j.s.active[i].id])
    ensures Only(j'.c, b) && Ready(j'.c, H) && BufOf(j'.c, H).data == x
  {
    StepSound(g, j, Store(H, x, i));
    j' := Apply(g, j, Store(H, x, i));
    CacheIs(j.c);
  }

  lemma TakeLog(g: LM.Layout, j: Joint, b: Word, i: nat, x: Block) returns (j': Joint)
    requires Inv(g, j) && Only(j.c, b) && Ready(j.c, H) && g.Home(b) && j.raw.Keys <= {H} && BufOf(j.c, H).data == x
    requires j.s.phase.Running? && i < |j.s.active| && |j.s.lh| < LOGBLOCKS
    ensures Moves(g, j, LogWrite(H, i), j') && Inv(g, j') && |j'.c.bufs| == |j.c.bufs|
    ensures j' == j.(c := j'.c, s := j'.s, log := j'.log, raw := map[])
    ensures Only(j'.c, b) && BufOf(j'.c, H).holder == Some(H)
    ensures LM.Shape(g, j.s) && LM.Enabled(g, j.s, LM.LogWrite(i, b, x))
            && j'.s == LM.Apply(g, j.s, LM.LogWrite(i, b, x))
  {
    StepSound(g, j, LogWrite(H, i));
    j' := Apply(g, j, LogWrite(H, i));
    assert j'.raw.Keys == {};
    CacheIs(j.c);
  }

  lemma TakeUnlock(g: LM.Layout, j: Joint, b: nat) returns (j': Joint)
    requires Inv(g, j) && Only(j.c, b) && BufOf(j.c, H).holder == Some(H) && H !in j.raw
    ensures Moves(g, j, Cache(BM.Unlock(H)), j') && Inv(g, j') && j' == j.(c := j'.c) && |j'.c.bufs| == |j.c.bufs|
    ensures Only(j'.c, b) && BufOf(j'.c, H).holder == None
  {
    var e := BM.Unlock(H);
    StepSound(g, j, Cache(e));
    j' := Apply(g, j, Cache(e));
    CacheIs(j.c);
  }

  lemma TakePut(g: LM.Layout, j: Joint, b: nat) returns (j': Joint)
    requires Inv(g, j) && Only(j.c, b) && BufOf(j.c, H).holder == None
    ensures Moves(g, j, Cache(BM.Put(H)), j') && Inv(g, j') && j' == j.(c := j'.c) && |j'.c.bufs| == |j.c.bufs|
    ensures j'.c.refs == map[]
  {
    CacheIs(j.c);
    var e := BM.Put(H);
    StepSound(g, j, Cache(e));
    j' := Apply(g, j, Cache(e));
    assert j'.c.refs.Keys == {};
  }

  lemma Follow(g: LM.Layout, j: Joint, es: seq<Event>, m: Joint, e: Event, n: Joint)
    requires Leads(g, j, es, m) && Moves(g, m, e, n)
    ensures Leads(g, j, es + [e], n)
  {
    Prepend(g, m, e, n, [], n);
    assert [e] + [] == [e];
    Append(g, j, es, m, [e], n);
  }

  /** bread, a store, log_write, brelse. */
  lemma LogOne(g: LM.Layout, j: Joint, b: Word, i: nat, x: Block) returns (es: seq<Event>, j': Joint)
    requires Inv(g, j) && Quiet(j) && j.raw == map[] && g.Home(b) && b < g.size && |j.s.lh| < |j.c.bufs|
    requires j.s.phase.Running? && i < |j.s.active| && |j.s.lh| < LOGBLOCKS
    ensures Leads(g, j, es, j') && Inv(g, j') && Quiet(j') && j'.raw == map[] && |j'.c.bufs| == |j.c.bufs|
    ensures LM.Shape(g, j.s) && LM.Enabled(g, j.s, LM.LogWrite(i, b, x))
            && j'.s == LM.Apply(g, j.s, LM.LogWrite(i, b, x))
  {
    PinnedIs(g, j);
    var j1 := TakeGet(g, j, b);
    Prepend(g, j, Cache(BM.Get(H, b)), j1, [], j1);
    es := [Cache(BM.Get(H, b))] + [];
    var j2 := TakeLock(g, j1, b);
    Follow(g, j, es, j1, Cache(BM.Lock(H)), j2);
    es := es + [Cache(BM.Lock(H))];
    var fs, j3 := TakeFill(g, j2, b);
    Append(g, j, es, j2, fs, j3);
    es := es + fs;
    var j0 := TakeStore(g, j3, b, i, x);
    Follow(g, j, es, j3, Store(H, x, i), j0);
    es := es + [Store(H, x, i)];
    var j4 := TakeLog(g, j0, b, i, x);
    Follow(g, j, es, j0, LogWrite(H, i), j4);
    es := es + [LogWrite(H, i)];
    var j5 := TakeUnlock(g, j4, b);
    Follow(g, j, es, j4, Cache(BM.Unlock(H)), j5);
    es := es + [Cache(BM.Unlock(H))];
    j' := TakePut(g, j5, b);
    Follow(g, j, es, j5, Cache(BM.Put(H)), j');
    es := es + [Cache(BM.Put(H))];
  }

  // ------------------------------------------------------------- system calls

  lemma Begin(g: LM.Layout, j: Joint, id: nat) returns (j': Joint)
    requires Inv(g, j) && Quiet(j) && j.raw == map[] && LM.Enabled(g, j.s, LM.BeginOp(id))
    ensures Moves(g, j, BeginOp(id), j') && Inv(g, j') && Quiet(j') && j'.raw == map[] && j'.c == j.c
    ensures LM.Shape(g, j.s) && j'.s == LM.Apply(g, j.s, LM.BeginOp(id))
  {
    StepSound(g, j, BeginOp(id));
    j' := Apply(g, j, BeginOp(id));
  }

  lemma End(g: LM.Layout, j: Joint) returns (j': Joint)
    requires Inv(g, j) && Quiet(j) && j.raw == map[] && LM.Enabled(g, j.s, LM.EndOp(0))
    ensures Moves(g, j, EndOp(0), j') && Inv(g, j') && Quiet(j') && j'.raw == map[] && j'.c == j.c
    ensures LM.Shape(g, j.s) && j'.s == LM.Apply(g, j.s, LM.EndOp(0))
  {
    StepSound(g, j, EndOp(0));
    j' := Apply(g, j, EndOp(0));
  }

  /** The writes of system calls 0, 1, 2, MAXOPBLOCKS of them each, to the blocks `bs` in turn. */
  ghost predicate Spread(ws: seq<LM.Write>, bs: seq<Word>, n: nat) {
    |ws| == n <= |bs| && forall k :: 0 <= k < n ==> ws[k].op == k / MAXOPBLOCKS && ws[k].bno == bs[k]
  }

  predicate Distinct(bs: seq<Word>) { forall k, l :: 0 <= k < l < |bs| ==> bs[k] != bs[l] }

  /** The first `n` of the blocks have been logged. */
  ghost predicate Filled(g: LM.Layout, s: LM.State, bs: seq<Word>, n: nat) {
    && s.phase.Running? && s.groups == [] && n <= |bs| == LOGBLOCKS && s.lh == bs[..n] && Spread(s.open, bs, n)
    && |s.active| == 3 && forall k :: 0 <= k < 3 ==> s.active[k].id == k
  }

  lemma FilledMore(g: LM.Layout, s: LM.State, bs: seq<Word>, n: nat, x: Block)
    requires LM.Shape(g, s) && Filled(g, s, bs, n) && n < LOGBLOCKS && Distinct(bs)
    requires LM.Enabled(g, s, LM.LogWrite(n / MAXOPBLOCKS, bs[n], x))
    ensures Filled(g, LM.Apply(g, s, LM.LogWrite(n / MAXOPBLOCKS, bs[n], x)), bs, n + 1)
  {
    assert bs[n] !in bs[..n];
    assert bs[..n] + [bs[n]] == bs[..n + 1];
  }

  lemma {:induction false} LogMany(g: LM.Layout, j: Joint, bs: seq<Word>, n: nat) returns (es: seq<Event>, j': Joint)
    requires Inv(g, j) && Quiet(j) && j.raw == map[] && |j.c.bufs| == LOGBLOCKS && Filled(g, j.s, bs, n)
    requires Distinct(bs) && forall k :: 0 <= k < |bs| ==> g.Home(bs[k])
    ensures Leads(g, j, es, j') && Inv(g, j') && Quiet(j') && j'.raw == map[] && |j'.c.bufs| == LOGBLOCKS
    ensures Filled(g, j'.s, bs, LOGBLOCKS)
    decreases LOGBLOCKS - n
  {
    if n == LOGBLOCKS {
      es, j' := [], j;
    } else {
      assert g.Home(bs[n]);
      var es1, j1 := LogOne(g, j, bs[n], n / MAXOPBLOCKS, Zero());
      FilledMore(g, j.s, bs, n, Zero());
      es, j' := LogMany(g, j1, bs, n + 1);
      Append(g, j, es1, j1, es, j');
      es := es1 + es;
    }
  }

  lemma {:induction false} BeginAll(g: LM.Layout, j: Joint, n: nat) returns (es: seq<Event>, j': Joint)
    requires Inv(g, j) && Quiet(j) && j.raw == map[] && j.s.phase.Running? && j.s.lh == [] && j.s.open == []
             && j.s.groups == []
    requires n <= 3 && |j.s.active| == n && (forall k :: 0 <= k < n ==> j.s.active[k].id == k)
    requires forall id :: id in j.s.begun ==> id < n
    ensures Leads(g, j, es, j') && Inv(g, j') && Quiet(j') && j'.raw == map[] && j'.c == j.c
    ensures j'.s.phase.Running? && j'.s.lh == [] && j'.s.open == [] && j'.s.groups == [] && |j'.s.active| == 3
    ensures forall k :: 0 <= k < 3 ==> j'.s.active[k].id == k
    decreases 3 - n
  {
    if n == 3 {
      es, j' := [], j;
    } else {
      var j1 := Begin(g, j, n);
      es, j' := BeginAll(g, j1, n + 1);
      Prepend(g, j, BeginOp(n), j1, es, j');
      es := [BeginOp(n)] + es;
    }
  }

  lemma {:induction false} EndAll(g: LM.Layout, j: Joint) returns (es: seq<Event>, j': Joint)
    requires Inv(g, j) && Quiet(j) && j.raw == map[] && j.s.phase.Running? && j.s.active != [] && j.s.lh != []
             && j.s.groups == []
    ensures Leads(g, j, es, j') && Inv(g, j') && Quiet(j') && j'.c == j.c
    ensures j'.s.phase == LM.WriteLog(0) && j'.s.lh == j.s.lh && j'.s.groups == [j.s.open]
    decreases |j.s.active|
  {
    var j1 := End(g, j);
    if |j.s.active| == 1 {
      Prepend(g, j, EndOp(0), j1, [], j1);
      es, j' := [EndOp(0)] + [], j1;
    } else {
      es, j' := EndAll(g, j1);
      Prepend(g, j, EndOp(0), j1, es, j');
      es := [EndOp(0)] + es;
    }
  }

  /** With no system call under way nothing is in flux. */
  lemma NoneRaw(g: LM.Layout, j: Joint)
    requires Inv(g, j) && j.s.active == []
    ensures j.raw == map[]
  {
    forall h ensures h !in j.raw {}
    assert j.raw == map[];
  }

  lemma FillLog(g: LM.Layout, j: Joint, bs: seq<Word>) returns (es: seq<Event>, now: Joint)
    requires Inv(g, j) && Quiet(j) && j.s.phase.Running? && j.s.lh == [] && j.s.active == [] && j.s.begun == {}
    requires j.s.groups == [] && |j.c.bufs| == |bs| == LOGBLOCKS
    requires Distinct(bs) && forall k :: 0 <= k < |bs| ==> g.Home(bs[k])
    ensures Leads(g, j, es, now) && Inv(g, now) && Quiet(now) && |now.c.bufs| == LOGBLOCKS
    ensures now.s.phase == LM.WriteLog(0) && now.s.lh == bs && |now.s.groups| == 1
            && Spread(now.s.groups[0], bs, LOGBLOCKS)
  {
    assert j.s.open == [] by { LogIs(g, j.s); }
    NoneRaw(g, j);
    var es1, j1 := BeginAll(g, j, 0);
    var es2, j2 := LogMany(g, j1, bs, 0);
    var es3, j3 := EndAll(g, j2);
    Append(g, j1, es2, j2, es3, j3);
    Append(g, j, es1, j1, es2 + es3, j3);
    es, now := es1 + (es2 + es3), j3;
    assert bs[..LOGBLOCKS] == bs;
  }

  /**
   * From power on, with as many buffers as the log has blocks, three system calls that log MAXOPBLOCKS blocks each, as
   * begin_op lets them, bring about a commit that cannot be done: every buffer is pinned.
   */
  lemma FullLogStops(g: LM.Layout, d: Disk, j: Joint, bs: seq<Word>) returns (es: seq<Event>, now: Joint)
    requires Initial(g, d, j) && |j.c.bufs| == LOGBLOCKS && |bs| == LOGBLOCKS
    requires Distinct(bs) && forall k :: 0 <= k < |bs| ==> g.Home(bs[k])
    ensures Exec(g, j, es) == Some(now) && Quiet(now) && |now.c.bufs| == LOGBLOCKS
    ensures now.s.phase == LM.WriteLog(0) && now.s.lh == bs && |now.s.groups| == 1
            && Spread(now.s.groups[0], bs, LOGBLOCKS)
    ensures !CanCommit(g, now)
  {
    InitialOk(g, d, j);
    var es1, j1 := Completes(g, j);
    var es2, j2 := FillLog(g, j1, bs);
    Append(g, j, es1, j1, es2, j2);
    es, now := es1 + es2, j2;
    Reached(g, j, es, now);
    CommitStops(g, now);
  }

  lemma Reached(g: LM.Layout, j: Joint, es: seq<Event>, now: Joint)
    requires Leads(g, j, es, now)
    ensures Exec(g, j, es) == Some(now)
  {
    assert Exec(g, j, []) == Some(j);
    RunOn(g, j, [], j, es, now);
    assert [] + es == es;
    assert Planned(0);
  }
}
