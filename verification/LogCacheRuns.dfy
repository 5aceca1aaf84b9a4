/** Every run of the log over the cache, with any number of other threads at work, is crash atomic. */
module LogCacheRuns {
  import opened Common
  import opened DiskTypes
  import opened LogCache
  import opened LogCacheInv
  import BM = BioModel
  import LM = LogModel
  import LR = LogRuns
  import Sets

  // ------------------------------------------------------------------- turns

  /** The two brelse at the end of a turn, in either order. */
  lemma ReleaseBoth(g: LM.Layout, s: LM.State, done: nat, p: Hold, q: Hold, h: nat)
    requires Settled(s, done) && p.Got? && q.Got? && h <= SECOND
    ensures Runs(g, s, done, [p, q], [Unlock(h), Put(h), Unlock(1 - h), Put(1 - h)])
  {
    var k := 1 - h;
    var one := [Out, Out][k := [p, q][k]];
    ReleaseOne(g, s, done, one, k);
    var two := [p, q][h := Ref([p, q][h].b)];
    assert two[h := Out] == one;
    var rest := [Put(h), Unlock(k), Put(k)];
    assert rest[1..] == [Unlock(k), Put(k)];
    assert Runs(g, s, done, two, rest);
    assert [Unlock(h), Put(h), Unlock(k), Put(k)][1..] == rest;
  }

  lemma ReleaseOne(g: LM.Layout, s: LM.State, done: nat, hands: seq<Hold>, h: nat)
    requires Settled(s, done) && |hands| == 2 && h <= SECOND && hands[h].Got? && hands[1 - h] == Out
    ensures Runs(g, s, done, hands, [Unlock(h), Put(h)])
  {
    var two := hands[h := Ref(hands[h].b)];
    assert two[h := Out] == [Out, Out];
    assert [Put(h)][1..] == [];
    assert Runs(g, s, done, two, [Put(h)]);
    assert [Unlock(h), Put(h)][1..] == [Put(h)];
  }

  /** The two bread at the beginning of a turn of write_log or install_trans. */
  lemma ReadBoth(g: LM.Layout, s: LM.State, done: nat, a: nat, b: nat, rest: seq<Instr>)
    requires a != b && a < g.size == |s.view| && b < g.size
    requires Runs(g, s, done, [Got(a, s.view[a]), Got(b, s.view[b])], rest)
    ensures Runs(g, s, done, [Out, Out], [Bread(FIRST, a), Bread(SECOND, b)] + rest)
  {
    var mid := [Bread(SECOND, b)] + rest;
    assert mid[1..] == rest;
    assert [Got(a, s.view[a]), Out][SECOND := Got(b, s.view[b])] == [Got(a, s.view[a]), Got(b, s.view[b])];
    assert Runs(g, s, done, [Got(a, s.view[a]), Out], mid);
    assert ([Bread(FIRST, a), Bread(SECOND, b)] + rest)[1..] == mid;
    assert [Out, Out][FIRST := Got(a, s.view[a])] == [Got(a, s.view[a]), Out];
  }

  /** A memmove between the two buffers and the bwrite of the one that was filled. */
  lemma MoveAndWrite(g: LM.Layout, s: LM.State, done: nat, hands: seq<Hold>, d: nat, e: LM.Event, rest: seq<Instr>)
    requires |hands| == 2 && d <= SECOND && hands[d].Got? && hands[1 - d].Got? && LM.Shape(g, s) && LM.Enabled(g, s, e)
    requires var s', x := LM.Apply(g, s, e), hands[1 - d].x;
             && Writes(s, s', hands[d].b, x) && s'.lh == s.lh != []
             && Runs(g, s', done, hands[d := Got(hands[d].b, x)], rest)
    ensures Runs(g, s, done, hands, [Move(d, 1 - d), Bwrite(d, e)] + rest)
  {
    var hands', mid := hands[d := Got(hands[d].b, hands[1 - d].x)], [Bwrite(d, e)] + rest;
    assert mid[1..] == rest;
    assert Runs(g, s, done, hands', mid);
    assert ([Move(d, 1 - d), Bwrite(d, e)] + rest)[1..] == mid;
  }

  /** write_log: one block. */
  lemma CopyTurn(g: LM.Layout, s: LM.State, done: nat)
    requires LM.Inv(g, s) && Settled(s, done) && s.phase.WriteLog? && s.phase.tail < |s.lh|
    ensures Runs(g, s, done, [Out, Out], Program(g, s))
  {
    var t := s.phase.tail;
    var a, b, s' := g.start + 1 + t, s.lh[t] as nat, LM.Apply(g, s, LM.CopyBlock);
    assert g.InLog(a) && g.Home(b);
    var p, q := Got(a, s.view[a]), Got(b, s.view[b]);
    ReleaseBoth(g, s', done, Got(a, s.view[b]), q, SECOND);
    var rest := [Unlock(SECOND), Put(SECOND), Unlock(FIRST), Put(FIRST)];
    assert [p, q][FIRST := Got(a, s.view[b])] == [Got(a, s.view[b]), q];
    MoveAndWrite(g, s, done, [p, q], FIRST, LM.CopyBlock, rest);
    ReadBoth(g, s, done, a, b, [Move(FIRST, SECOND), Bwrite(FIRST, LM.CopyBlock)] + rest);
    assert Program(g, s) == [Bread(FIRST, a), Bread(SECOND, b)]
      + ([Move(FIRST, SECOND), Bwrite(FIRST, LM.CopyBlock)] + rest);
  }

  /** The end of a turn of install_trans. */
  lemma UnpinAndRelease(g: LM.Layout, s: LM.State, done: nat, p: Hold, q: Hold)
    requires s.phase == LM.Install(done + 1) && done < |s.lh| && p.Got? && q.Got?
    requires q.b == s.lh[done] && q.b < |s.disk| && q.x == s.disk[q.b]
    ensures Runs(g, s, done, [p, q], [Bunpin(SECOND), Unlock(FIRST), Put(FIRST), Unlock(SECOND), Put(SECOND)])
  {
    ReleaseBoth(g, s, done + 1, p, q, FIRST);
    var end := [Unlock(FIRST), Put(FIRST), Unlock(SECOND), Put(SECOND)];
    assert [Bunpin(SECOND), Unlock(FIRST), Put(FIRST), Unlock(SECOND), Put(SECOND)][1..] == end;
  }

  /** install_trans: one block, in a commit. */
  lemma InstallTurn(g: LM.Layout, s: LM.State, done: nat)
    requires LM.Inv(g, s) && Settled(s, done) && s.phase.Install? && s.phase.tail < |s.lh|
    ensures Runs(g, s, done, [Out, Out], Program(g, s))
  {
    var t := s.phase.tail;
    var a, b, s' := g.start + 1 + t, s.lh[t] as nat, LM.Apply(g, s, LM.InstallBlock);
    assert g.InLog(a) && g.Home(b);
    var p, q, q' := Got(a, s.view[a]), Got(b, s.view[b]), Got(b, s.view[a]);
    UnpinAndRelease(g, s', done, p, q');
    var rest := [Bunpin(SECOND), Unlock(FIRST), Put(FIRST), Unlock(SECOND), Put(SECOND)];
    assert [p, q][SECOND := q'] == [p, q'];
    MoveAndWrite(g, s, done, [p, q], SECOND, LM.InstallBlock, rest);
    ReadBoth(g, s, done, a, b, [Move(SECOND, FIRST), Bwrite(SECOND, LM.InstallBlock)] + rest);
    assert Program(g, s) == [Bread(FIRST, a), Bread(SECOND, b)]
      + ([Move(SECOND, FIRST), Bwrite(SECOND, LM.InstallBlock)] + rest);
  }

  /** install_trans: one block, in recovery, which has nothing to unpin. */
  lemma RecoverTurn(g: LM.Layout, s: LM.State, done: nat)
    requires LM.Inv(g, s) && Settled(s, done) && s.phase.Recovering? && s.phase.tail < |s.lh|
    ensures Runs(g, s, done, [Out, Out], Program(g, s))
  {
    var t := s.phase.tail;
    var a, b, s' := g.start + 1 + t, s.lh[t] as nat, LM.Apply(g, s, LM.RecoverBlock);
    assert g.InLog(a) && g.Home(b);
    var p, q, q' := Got(a, s.view[a]), Got(b, s.view[b]), Got(b, s.view[a]);
    ReleaseBoth(g, s', done, p, q', FIRST);
    var rest := [Unlock(FIRST), Put(FIRST), Unlock(SECOND), Put(SECOND)];
    assert [p, q][SECOND := q'] == [p, q'];
    MoveAndWrite(g, s, done, [p, q], SECOND, LM.RecoverBlock, rest);
    ReadBoth(g, s, done, a, b, [Move(SECOND, FIRST), Bwrite(SECOND, LM.RecoverBlock)] + rest);
    assert Program(g, s) == [Bread(FIRST, a), Bread(SECOND, b)]
      + ([Move(SECOND, FIRST), Bwrite(SECOND, LM.RecoverBlock)] + rest);
  }

  /** The end of write_head: bwrite and brelse of the header. */
  lemma WriteAndRelease(g: LM.Layout, s: LM.State, done: nat, hold: Hold, e: LM.Event, s': LM.State)
    requires hold.Got? && LM.Shape(g, s) && LM.Enabled(g, s, e) && s' == LM.Apply(g, s, e)
             && Writes(s, s', hold.b, hold.x)
    requires (s'.lh == [] ==> done == |s.lh|) && Settled(s', if s'.lh == [] then 0 else done)
    ensures Runs(g, s, done, [hold, Out], [Bwrite(FIRST, e), Unlock(FIRST), Put(FIRST)])
  {
    ReleaseOne(g, s', if s'.lh == [] then 0 else done, [hold, Out], FIRST);
    assert [Bwrite(FIRST, e), Unlock(FIRST), Put(FIRST)][1..] == [Unlock(FIRST), Put(FIRST)];
  }

  /** Its beginning: bread of the header and the stores into it. */
  lemma ReadAndFill(g: LM.Layout, s: LM.State, done: nat, b: nat, lh: seq<Word>, rest: seq<Instr>)
    requires b < g.size == |s.view| && |lh| <= LOGBLOCKS && rest != [] && rest[0].Bwrite? && rest[0].h == FIRST
    requires Runs(g, s, done, [Got(b, LM.WithHeader(s.view[b], lh)), Out], rest)
    ensures Runs(g, s, done, [Out, Out], [Bread(FIRST, b), Header(FIRST, lh)] + rest)
  {
    var x, mid := s.view[b], [Header(FIRST, lh)] + rest;
    assert mid[1..] == rest;
    assert [Got(b, x), Out][FIRST := Got(b, LM.WithHeader(x, lh))] == [Got(b, LM.WithHeader(x, lh)), Out];
    assert Runs(g, s, done, [Got(b, x), Out], mid);
    assert ([Bread(FIRST, b), Header(FIRST, lh)] + rest)[1..] == mid;
    assert [Out, Out][FIRST := Got(b, x)] == [Got(b, x), Out];
  }

  /** write_head, with the log's block numbers or with none. */
  lemma HeadTurn(g: LM.Layout, s: LM.State, done: nat, lh: seq<Word>, e: LM.Event, s': LM.State)
    requires LM.Shape(g, s) && |lh| <= LOGBLOCKS && LM.Enabled(g, s, e) && s' == LM.Apply(g, s, e)
    requires Writes(s, s', g.start, LM.WithHeader(s.view[g.start], lh))
    requires (s'.lh == [] ==> done == |s.lh|) && Settled(s', if s'.lh == [] then 0 else done)
    ensures Runs(g, s, done, [Out, Out], Heading(g, lh, e))
  {
    var rest := [Bwrite(FIRST, e), Unlock(FIRST), Put(FIRST)];
    WriteAndRelease(g, s, done, Got(g.start, LM.WithHeader(s.view[g.start], lh)), e, s');
    ReadAndFill(g, s, done, g.start, lh, rest);
    assert Heading(g, lh, e) == [Bread(FIRST, g.start), Header(FIRST, lh)] + rest;
  }

  /** read_head. */
  lemma LookTurn(g: LM.Layout, s: LM.State, done: nat)
    requires LM.Inv(g, s) && Settled(s, done) && s.phase.Boot?
    ensures Runs(g, s, done, [Out, Out], Program(g, s))
  {
    var x, s' := s.view[g.start], LM.Apply(g, s, LM.ReadHead);
    var end := [Unlock(FIRST), Put(FIRST)];
    ReleaseOne(g, s', |s'.lh|, [Got(g.start, x), Out], FIRST);
    var three := [Look(FIRST)] + end;
    assert three[1..] == end;
    assert Runs(g, s, done, [Got(g.start, x), Out], three);
    assert Program(g, s)[1..] == three;
    assert [Out, Out][FIRST := Got(g.start, x)] == [Got(g.start, x), Out];
  }

  /** Each turn, done to its end, is what the log machine's next step asks for. */
  lemma TurnRuns(g: LM.Layout, s: LM.State, done: nat)
    requires LM.Inv(g, s) && Settled(s, done) && Program(g, s) != []
    ensures Runs(g, s, done, [Out, Out], Program(g, s))
  {
    match s.phase
    case WriteLog(t) =>
      if t < |s.lh| { CopyTurn(g, s, done); }
      else { HeadTurn(g, s, done, s.lh, LM.WriteHead, LM.Apply(g, s, LM.WriteHead)); }
    case Install(t) =>
      if t < |s.lh| { InstallTurn(g, s, done); }
      else { HeadTurn(g, s, done, [], LM.ClearHead, LM.Apply(g, s, LM.ClearHead)); }
    case Boot => LookTurn(g, s, done);
    case Recovering(t) =>
      if t < |s.lh| { RecoverTurn(g, s, done); }
      else { HeadTurn(g, s, done, [], LM.RecoverClear, LM.Apply(g, s, LM.RecoverClear)); }
    case _ =>
  }

  // ------------------------------------------------------------------- steps

  lemma TurnStep(g: LM.Layout, j: Joint)
    requires Inv(g, j) && Enabled(g, j, Turn)
    ensures Inv(g, Apply(g, j, Turn))
  {
    LogIs(g, j.s);
    PlanEnds(g, j.s, j.done, j.hands);
    TurnRuns(g, j.s, j.done);
    assert forall b :: Flux(j.c, j.raw, Program(g, j.s), b) ==> Flux(j.c, j.raw, j.todo, b);
  }

  lemma GoRead(g: LM.Layout, j: Joint)
    requires Inv(g, j) && Enabled(g, j, Go) && j.todo[0].Bread?
    ensures CacheStep(j, Go).Some? ==> Can(j.c, CacheStep(j, Go).value)
    ensures Inv(g, Apply(g, j, Go))
  {
    BreadSound(g, j);
    var r := CacheStep(j, Go);
    if r.Some? { BreadStep(g, j, r.value); } else { BreadDone(g, j); }
  }

  lemma GoWrite(g: LM.Layout, j: Joint)
    requires Inv(g, j) && Enabled(g, j, Go) && (j.todo[0].Bwrite? || j.todo[0].Look?)
    ensures CacheStep(j, Go).Some? ==> Can(j.c, CacheStep(j, Go).value)
    ensures LM.Shape(g, j.s) && LM.Enabled(g, j.s, LogStep(j, Go).value)
    ensures Inv(g, Apply(g, j, Go))
  {
    if j.todo[0].Bwrite? {
      NextBwrite(g, j.s, j.done, j.hands, j.todo);
      BwriteStep(g, j, LM.Apply(g, j.s, j.todo[0].e));
    } else {
      NextLook(g, j.s, j.done, j.hands, j.todo);
      LookStep(g, j, LM.Apply(g, j.s, LM.ReadHead));
    }
  }

  lemma GoRest(g: LM.Layout, j: Joint)
    requires Inv(g, j) && Enabled(g, j, Go) && !j.todo[0].Bread? && !j.todo[0].Bwrite? && !j.todo[0].Look?
    ensures CacheStep(j, Go).Some? && Can(j.c, CacheStep(j, Go).value)
    ensures Inv(g, Apply(g, j, Go))
    ensures j.todo[0].Bunpin? ==> OnDisk(j.c, j.todo[0].h)
  {
    if j.todo[0].Move? || j.todo[0].Header? {
      StoreSound(g, j);
    } else if j.todo[0].Bunpin? {
      UnpinStep(g, j);
    } else {
      ReleaseSound(g, j);
      ReleaseStep(g, j, CacheStep(j, Go).value);
    }
  }

  lemma GoStep(g: LM.Layout, j: Joint)
    requires Inv(g, j) && Enabled(g, j, Go)
    ensures CacheStep(j, Go).Some? ==> Can(j.c, CacheStep(j, Go).value)
    ensures LogStep(j, Go).Some? ==> LM.Shape(g, j.s) && LM.Enabled(g, j.s, LogStep(j, Go).value)
    ensures Inv(g, Apply(g, j, Go))
    ensures j.todo[0].Bunpin? ==> OnDisk(j.c, j.todo[0].h)
  {
    if j.todo[0].Bread? {
      GoRead(g, j);
    } else if j.todo[0].Bwrite? || j.todo[0].Look? {
      GoWrite(g, j);
    } else {
      GoRest(g, j);
    }
  }

  /** Every event keeps the rules of the cache and of the log, and the invariant. */
  lemma StepSound(g: LM.Layout, j: Joint, e: Event)
    requires Inv(g, j) && Enabled(g, j, e)
    ensures CacheStep(j, e).Some? ==> Can(j.c, CacheStep(j, e).value)
    ensures LogStep(j, e).Some? ==> LM.Shape(g, j.s) && LM.Enabled(g, j.s, LogStep(j, e).value)
    ensures e.LogWrite? ==> LogStep(j, e).Some?
    ensures e.Go? && j.todo[0].Bunpin? ==> OnDisk(j.c, j.todo[0].h)
    ensures Inv(g, Apply(g, j, e))
  {
    assert LM.Shape(g, j.s) by { LogIs(g, j.s); }
    match e
    case Cache(x) => UserSound(g, j, x); UserStep(g, j, x);
    case Store(h, x, i) => StoreStep(g, j, h, x, i);
    case LogWrite(h, i) => LogWriteSound(g, j, h, i);
    case Turn => TurnStep(g, j);
    case Go => GoStep(g, j);
    case Crash(c) => CrashStep(g, j, c);
    case _ => OpStep(g, j, e, LogStep(j, e).value);
  }

  // -------------------------------------------------------------------- runs

  /** Where the events `es` lead; None if one of them cannot happen. */
  ghost function Exec(g: LM.Layout, j: Joint, es: seq<Event>): (r: Option<Joint>) {
    if es == [] then Some(j)
    else
      var before := Exec(g, j, es[..|es| - 1]);
      if before.Some? && Enabled(g, before.value, es[|es| - 1])
      then Some(Apply(g, before.value, es[|es| - 1]))
      else None
  }

  /** The log machine has taken the steps in `log`. */
  ghost predicate Refined(g: LM.Layout, d: Disk, j: Joint) {
    LM.DiskOk(g, d) && LR.Exec(g, d, j.log) == LR.At(j.s)
  }

  lemma InitialOk(g: LM.Layout, d: Disk, j: Joint)
    requires Initial(g, d, j)
    ensures Inv(g, j) && Refined(g, d, j)
  {
    BM.InitialInv(j.c);
    LR.InitInv(g, d);
    assert Runs(g, j.s, 0, [Out, Out], []);
  }

  /** The step of the log machine, if any, is all that happens to its state. */
  lemma StepLog(g: LM.Layout, j: Joint, e: Event)
    requires Inv(g, j) && Enabled(g, j, e)
    ensures var j', r := Apply(g, j, e), LogStep(j, e);
            if r.Some?
            then LM.Shape(g, j.s) && LM.Enabled(g, j.s, r.value) && j'.s == LM.Apply(g, j.s, r.value)
                && j'.log == j.log + [r.value]
            else j'.s == j.s && j'.log == j.log
  {
    StepSound(g, j, e);
  }

  lemma StepRefined(g: LM.Layout, d: Disk, j: Joint, e: Event)
    requires Inv(g, j) && Enabled(g, j, e) && Refined(g, d, j)
    ensures Refined(g, d, Apply(g, j, e)) && j.log <= Apply(g, j, e).log
  {
    StepLog(g, j, e);
    var r := LogStep(j, e);
    if r.Some? {
      var log' := j.log + [r.value];
      assert log'[..|log'| - 1] == j.log;
    }
  }

  /** Every reachable state satisfies the invariant, and its log part is one that LogRuns speaks of. */
  lemma {:induction false} RunInv(g: LM.Layout, d: Disk, j: Joint, es: seq<Event>)
    requires Initial(g, d, j) && Exec(g, j, es).Some?
    ensures Inv(g, Exec(g, j, es).value) && Refined(g, d, Exec(g, j, es).value)
  {
    if es == [] {
      InitialOk(g, d, j);
    } else {
      var before := Exec(g, j, es[..|es| - 1]).value;
      RunInv(g, d, j, es[..|es| - 1]);
      StepSound(g, before, es[|es| - 1]);
      StepRefined(g, d, before, es[|es| - 1]);
    }
  }

  /** The steps that the log machine has taken at a moment are the first of those it takes in the end. */
  lemma {:induction false} LogGrows(g: LM.Layout, d: Disk, j: Joint, es: seq<Event>, k: nat)
    requires Initial(g, d, j) && Exec(g, j, es).Some? && k <= |es|
    ensures Exec(g, j, es[..k]).Some? && Exec(g, j, es[..k]).value.log <= Exec(g, j, es).value.log
    decreases |es|
  {
    if k == |es| {
      assert es[..k] == es;
    } else {
      var init := es[..|es| - 1];
      assert init[..k] == es[..k];
      LogGrows(g, d, j, init, k);
      RunInv(g, d, j, init);
      StepRefined(g, d, Exec(g, j, init).value, es[|es| - 1]);
    }
  }

  /**
   * Crash atomicity with everyone at work. Stop any run, with any threads in the middle of reading, changing or
   * releasing any buffers: the disk that is found then recovers to a whole number of commit groups, none of them
   * lost that had been acknowledged; and whatever is durable or acknowledged then stays so to the end of the run.
   */
  lemma ConcurrentAtomicity(g: LM.Layout, d: Disk, j: Joint, es: seq<Event>, k: nat)
    requires Initial(g, d, j) && Exec(g, j, es).Some? && k <= |es|
    ensures Exec(g, j, es[..k]).Some?
    ensures var now, end := Exec(g, j, es[..k]).value, Exec(g, j, es).value;
            now.c.disk == now.s.disk && LR.Safe(g, d, now.s) && LR.Extends(now.s, end.s)
  {
    LogGrows(g, d, j, es, k);
    RunInv(g, d, j, es[..k]);
    RunInv(g, d, j, es);
    var now, end := Exec(g, j, es[..k]).value, Exec(g, j, es).value;
    var n := |now.log|;
    assert end.log[..n] == now.log;
    var s := LR.Moment(g, d, end.log, n, end.log[..n], end.log[n..]);
  }

  /** Outside recovery the log machine's view of a home block is what has been logged. */
  lemma ViewIs(g: LM.Layout, s: LM.State, b: nat)
    requires LM.Inv(g, s) && g.Home(b) && !s.phase.Boot? && !s.phase.Recovering?
    ensures s.view[b] == LM.ApplyWrites(g, LM.All(g, s), s.open)[b]
  {
    assert s.phase.Finish? ==> !LM.Named(s.lh, 0, b);
  }

  lemma ReaderSees(g: LM.Layout, j: Joint, h: nat)
    requires Inv(g, j) && h > SECOND && Ready(j.c, h) && h !in j.raw
    ensures LM.Inv(g, j.s) && BufOf(j.c, h).blockno < g.size && BufOf(j.c, h).data == j.s.view[BufOf(j.c, h).blockno]
  {
    if j.todo != [] && j.todo[0].Bwrite? { NextBwrite(g, j.s, j.done, j.hands, j.todo); }
    NotFlux(g, j, h);
    CleanOrPinned(g, j, h);
    LogIs(g, j.s);
  }

  /**
   * What a reader sees. Whoever has a buffer locked and has not stored into it sees what all system calls have
   * logged so far, also while a commit copies, writes and installs that very block.
   */
  lemma ReadersSee(g: LM.Layout, d: Disk, j: Joint, es: seq<Event>, h: nat, now: Joint, b: nat)
    requires Initial(g, d, j) && Exec(g, j, es) == Some(now) && h > SECOND
    requires Ready(now.c, h) && h !in now.raw && b == BufOf(now.c, h).blockno
    ensures LM.Shape(g, now.s) && b < g.size && BufOf(now.c, h).data == now.s.view[b]
    ensures g.Home(b) && !now.s.phase.Boot? && !now.s.phase.Recovering? ==>
              BufOf(now.c, h).data == LM.ApplyWrites(g, LM.All(g, now.s), now.s.open)[b]
  {
    RunInv(g, d, j, es);
    ReaderSees(g, now, h);
    if g.Home(b) && !now.s.phase.Boot? && !now.s.phase.Recovering? { ViewIs(g, now.s, b); }
  }

  /** What a thread holds stays as it is, until the thread stores or releases it. */
  lemma HeldStays(g: LM.Layout, j: Joint, e: Event, h: nat)
    requires Inv(g, j) && Enabled(g, j, e) && h > SECOND && Ready(j.c, h)
    requires !e.Crash? && !(e.Store? && e.h == h) && e != Cache(BM.Unlock(h))
    ensures var c' := Apply(g, j, e).c;
            Ready(c', h) && BufOf(c', h).data == BufOf(j.c, h).data && BufOf(c', h).blockno == BufOf(j.c, h).blockno
  {
    StepSound(g, j, e);
    var r := CacheStep(j, e);
    if r.Some? {
      if e.Go? { OwnHandles(g, j); }
      if r.value.h != h {
        OthersKept(j.c, r.value, h);
      } else {
        CacheIs(j.c);
      }
    }
  }

  /** The log's thread uses its own handles. */
  lemma OwnHandles(g: LM.Layout, j: Joint)
    requires Inv(g, j) && j.todo != [] && CacheStep(j, Go).Some?
    ensures CacheStep(j, Go).value.h <= SECOND
  {
    match j.todo[0]
    case Bread(_, _) => NextBread(g, j.s, j.done, j.hands, j.todo);
    case Bwrite(_, _) => NextBwrite(g, j.s, j.done, j.hands, j.todo);
    case Look(_) =>
    case Bunpin(_) => NextUnpin(g, j.s, j.done, j.hands, j.todo);
    case Unlock(_) => NextRelease(g, j.s, j.done, j.hands, j.todo);
    case Put(_) => NextRelease(g, j.s, j.done, j.hands, j.todo);
    case _ => var h, x := NextStore(g, j.s, j.done, j.hands, j.todo);
  }

  /** Between events `a` and `k` handle `h` does not store or let go, and there is no crash. */
  ghost predicate Holds(es: seq<Event>, a: nat, k: nat, h: nat) {
    forall m :: a < m < k && m < |es| ==> !es[m].Crash? && !(es[m].Store? && es[m].h == h)
                                          && es[m] != Cache(BM.Unlock(h))
  }

  lemma StoreShows(g: LM.Layout, j: Joint, h: nat, x: Block, i: nat)
    requires Inv(g, j) && Enabled(g, j, Store(h, x, i))
    ensures var j' := Apply(g, j, Store(h, x, i));
            Ready(j'.c, h) && BufOf(j'.c, h).data == x && BufOf(j'.c, h).blockno == BufOf(j.c, h).blockno && h in j'.raw
  {
    StepSound(g, j, Store(h, x, i));
    CacheIs(j.c);
  }

  lemma ExecLast(g: LM.Layout, d: Disk, j: Joint, es: seq<Event>, k: nat) returns (now: Joint)
    requires Initial(g, d, j) && Exec(g, j, es).Some? && k < |es|
    ensures Exec(g, j, es[..k]) == Some(now) && Inv(g, now) && Enabled(g, now, es[k])
    ensures Exec(g, j, es[..k + 1]) == Some(Apply(g, now, es[k]))
  {
    LogGrows(g, d, j, es, k + 1);
    assert es[..k + 1][..k] == es[..k];
    now := Exec(g, j, es[..k]).value;
    RunInv(g, d, j, es[..k]);
  }

  lemma {:induction false} StoredStays(g: LM.Layout, d: Disk, j: Joint, es: seq<Event>, a: nat, k: nat, h: nat)
    returns (now: Joint)
    requires Initial(g, d, j) && Exec(g, j, es).Some? && a < k <= |es| && es[a].Store? && es[a].h == h
             && Holds(es, a, k, h)
    ensures Exec(g, j, es[..k]) == Some(now) && h > SECOND && Ready(now.c, h) && BufOf(now.c, h).data == es[a].x
    decreases k
  {
    var n := k - 1;
    if n == a {
      var was := ExecLast(g, d, j, es, a);
      StoreShows(g, was, h, es[a].x, es[a].i);
      now := Apply(g, was, es[a]);
    } else {
      var was := StoredStays(g, d, j, es, a, n, h);
      var _ := ExecLast(g, d, j, es, n);
      HeldStays(g, was, es[n], h);
      now := Apply(g, was, es[n]);
    }
  }

  /** What log_write logs is what its caller last stored into the buffer, whatever the others have done meanwhile. */
  lemma LogsWhatWasStored(g: LM.Layout, d: Disk, j: Joint, es: seq<Event>, a: nat, k: nat, h: nat, i: nat)
    returns (was: Joint, now: Joint, w: LM.Write)
    requires Initial(g, d, j) && Exec(g, j, es).Some? && a < k < |es| && es[a].Store? && es[a].h == h
             && Holds(es, a, k, h)
    requires es[k] == LogWrite(h, i)
    ensures Exec(g, j, es[..k]) == Some(was) && Exec(g, j, es[..k + 1]) == Some(now) && i < |was.s.active|
    ensures now.s.open == was.s.open + [w] && w.data == es[a].x && w.op == was.s.active[i].id
    ensures w.bno == BufOf(was.c, h).blockno && h !in now.raw
  {
    was := StoredStays(g, d, j, es, a, k, h);
    var _ := ExecLast(g, d, j, es, k);
    StepLog(g, was, es[k]);
    now := Apply(g, was, es[k]);
    w := LM.Write(was.s.active[i].id, BufOf(was.c, h).blockno, es[a].x);
  }

  // ----------------------------------------------------------- enough buffers

  ghost predicate HasOne(bufs: seq<BM.Buf>, pins: set<nat>, b: nat) {
    exists i :: i in pins && i < |bufs| && bufs[i].blockno == b
  }

  /** As many buffers as block numbers, when each has one and none has two. */
  lemma {:induction false} PinSize(bufs: seq<BM.Buf>, pins: set<nat>, lh: seq<Word>)
    requires forall i :: i in pins ==> i < |bufs| && LM.Named(lh, 0, bufs[i].blockno)
    requires forall i, l :: i in pins && l in pins && i < l ==> bufs[i].blockno != bufs[l].blockno
    requires forall k :: 0 <= k < |lh| ==> HasOne(bufs, pins, lh[k])
    requires forall k, l :: 0 <= k < l < |lh| ==> lh[k] != lh[l]
    ensures |pins| == |lh|
  {
    if lh == [] {
      assert pins == {};
    } else {
      var n := |lh| - 1;
      assert HasOne(bufs, pins, lh[n]);
      var i :| i in pins && i < |bufs| && bufs[i].blockno == lh[n];
      var pins', lh' := pins - {i}, lh[..n];
      forall l | l in pins' ensures LM.Named(lh', 0, bufs[l].blockno) {
        var k :| 0 <= k < |lh| && lh[k] == bufs[l].blockno;
        assert lh'[k] == bufs[l].blockno;
      }
      forall k | 0 <= k < n ensures HasOne(bufs, pins', lh'[k]) {
        assert HasOne(bufs, pins, lh[k]);
        var l :| l in pins && l < |bufs| && bufs[l].blockno == lh[k];
        assert l in pins';
      }
      PinSize(bufs, pins', lh');
    }
  }

  lemma PinsNumber(c: BM.Cache, lh: seq<Word>, done: nat)
    requires CacheOk(c) && PinsOk(c, lh, done)
    ensures |c.pins| == |lh| - done
  {
    var rest := lh[done..];
    forall i | i in c.pins ensures i < |c.bufs| && LM.Named(rest, 0, c.bufs[i].blockno) {
      var k :| done <= k < |lh| && lh[k] == c.bufs[i].blockno;
      assert rest[k - done] == c.bufs[i].blockno;
    }
    forall k | 0 <= k < |rest| ensures HasOne(c.bufs, c.pins, rest[k]) {
      assert PinnedFor(c, lh[done + k]);
      var i :| i in c.pins && i < |c.bufs| && c.bufs[i].Caches(lh[done + k]);
      assert i in c.pins && c.bufs[i].blockno == rest[k];
    }
    forall i, l | i in c.pins && l in c.pins && i < l ensures c.bufs[i].blockno != c.bufs[l].blockno {
      CacheIs(c);
      assert BM.UseInv(c) && BM.UniqueInv(c);
    }
    forall k, l | 0 <= k < l < |rest| ensures rest[k] != rest[l] {
      assert rest[k] == lh[done + k] && rest[l] == lh[done + l];
    }
    PinSize(c.bufs, c.pins, rest);
  }

  /** The log keeps exactly one buffer pinned for each entry it has not installed. */
  lemma PinCount(g: LM.Layout, d: Disk, j: Joint, es: seq<Event>)
    requires Initial(g, d, j) && Exec(g, j, es).Some?
    ensures var now := Exec(g, j, es).value; now.done <= |now.s.lh| && |now.c.pins| == |now.s.lh| - now.done
  {
    RunInv(g, d, j, es);
    var now := Exec(g, j, es).value;
    PinsNumber(now.c, now.s.lh, now.done);
  }

  lemma PinsAreHome(g: LM.Layout, c: BM.Cache, lh: seq<Word>, done: nat)
    requires PinsOk(c, lh, done) && LM.HeaderOk(g, lh)
    ensures forall i :: i in c.pins ==> i < |c.bufs| && g.Home(c.bufs[i].blockno)
  {
    forall i | i in c.pins ensures i < |c.bufs| && g.Home(c.bufs[i].blockno) {
      assert LM.Named(lh, done, c.bufs[i].blockno);
      var k :| done <= k < |lh| && lh[k] == c.bufs[i].blockno;
    }
  }

  /** When every buffer is pinned for a home block, bget of a log block has none to take. */
  lemma AllPinned(c: BM.Cache, a: nat, h: nat)
    requires BM.Inv(c) && |c.bufs| <= |c.pins| && forall i :: i in c.pins ==> c.bufs[i].blockno != a
    ensures !BM.Enabled(c, BM.Get(h, a))
  {
    assert BM.UseInv(c);
    forall i | 0 <= i < |c.bufs| ensures i in c.pins {
      if i !in c.pins { Sets.RangeSize(0, |c.bufs|, c.pins + {i}); }
    }
    forall k | 0 <= k < |c.order| ensures c.bufs[c.order[k]].refcnt != 0 && !c.bufs[c.order[k]].Caches(a) {
      assert c.order[k] in c.pins;
    }
  }
}
