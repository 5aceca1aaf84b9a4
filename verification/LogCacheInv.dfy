/** What every step of the log over the cache keeps, and that it keeps the rules of both. */
module LogCacheInv {
  import opened Common
  import opened DiskTypes
  import opened LogCache
  import BM = BioModel
  import LM = LogModel

  // -------------------------------------------------------------- invariant

  /** Handle `h` of the log's thread is where its program says. */
  ghost predicate Has(c: BM.Cache, todo: seq<Instr>, h: nat, hold: Hold) {
    match hold
    case Out => h in c.refs ==> todo != [] && todo[0].Bread? && todo[0].h == h && BufOf(c, h).Caches(todo[0].b)
    case Ref(b) => h in c.refs && BufOf(c, h).Caches(b) && BufOf(c, h).holder != Some(h)
    case Got(b, x) => Ready(c, h) && BufOf(c, h).Caches(b) && BufOf(c, h).data == x
  }

  /** Between turns: what of the log is pinned goes with the phase. */
  predicate Settled(s: LM.State, done: nat) {
    match s.phase
    case Running | WriteLog(_) => done == 0
    case Install(t) => done == t
    case Recovering(_) => done == |s.lh|
    case Boot | Finish => s.lh == [] && done == 0
  }

  /** A write of `x` to block `b`, in the cache and on disk, and nothing else that others see. */
  predicate Writes(s: LM.State, s': LM.State, b: nat, x: Block) {
    && b < |s.disk| && b < |s.view| && s'.disk == s.disk[b := x] && s'.view == s.view[b := x]
    && s'.active == s.active && (s'.lh == s.lh || s'.lh == [])
  }

  /** The rest of a turn does what the log machine asks, and ends with no buffer held. */
  ghost predicate Runs(g: LM.Layout, s: LM.State, done: nat, hands: seq<Hold>, todo: seq<Instr>)
    requires |hands| == 2
    decreases |todo|
  {
    if todo == [] then hands == [Out, Out] && Settled(s, done)
    else
      var i, rest := todo[0], todo[1..];
      match i
      case Bread(h, b) =>
        && h <= SECOND && hands[h] == Out && b < g.size == |s.view| && Apart(hands[1 - h], b)
        && Runs(g, s, done, hands[h := Got(b, s.view[b])], rest)
      case Move(d, x) =>
        && d <= SECOND && x == 1 - d && hands[d].Got? && hands[x].Got? && rest != [] && rest[0].Bwrite?
           && rest[0].h == d
        && Runs(g, s, done, hands[d := Got(hands[d].b, hands[x].x)], rest)
      case Header(h, lh) =>
        && h <= SECOND && hands[h].Got? && |lh| <= LOGBLOCKS && rest != [] && rest[0].Bwrite? && rest[0].h == h
        && Runs(g, s, done, hands[h := Got(hands[h].b, LM.WithHeader(hands[h].x, lh))], rest)
      case Bwrite(h, e) =>
        && h <= SECOND && hands[h].Got? && LM.Shape(g, s) && LM.Enabled(g, s, e)
        && var s' := LM.Apply(g, s, e);
           && Writes(s, s', hands[h].b, hands[h].x) && (s'.lh == [] ==> done == |s.lh|)
           && Runs(g, s', Done(s', done, i), hands, rest)
      case Look(h) =>
        && h <= SECOND && LM.Shape(g, s) && LM.Enabled(g, s, LM.ReadHead) && s.lh == []
        && var s' := LM.Apply(g, s, LM.ReadHead);
           hands[h] == Got(g.start, s.view[g.start]) && Runs(g, s', |s'.lh|, hands, rest)
      case Bunpin(h) =>
        && h <= SECOND && hands[h].Got? && s.phase == LM.Install(done + 1) && done < |s.lh|
        && hands[h].b == s.lh[done] && hands[h].b < |s.disk| && hands[h].x == s.disk[hands[h].b]
        && Runs(g, s, done + 1, hands, rest)
      case Unlock(h) => h <= SECOND && hands[h].Got? && Runs(g, s, done, hands[h := Ref(hands[h].b)], rest)
      case Put(h) => h <= SECOND && hands[h].Ref? && Runs(g, s, done, hands[h := Out], rest)
  }

  predicate Apart(hold: Hold, b: nat) { hold.Out? || hold.b != b }

  /** Block `b` has been stored into and the log does not know yet. */
  ghost predicate Flux(c: BM.Cache, raw: map<nat, nat>, todo: seq<Instr>, b: nat) {
    || (exists h :: h in raw && BufOf(c, h).blockno == b)
    || (todo != [] && todo[0].Bwrite? && BufOf(c, todo[0].h).blockno == b)
  }

  /** Otherwise the cache holds what the log machine says bread returns. */
  ghost predicate Agree(g: LM.Layout, c: BM.Cache, s: LM.State, raw: map<nat, nat>, todo: seq<Instr>) {
    && |c.latest| == |s.view| == g.size
    && forall b {:trigger c.latest[b]} :: 0 <= b < g.size && !Flux(c, raw, todo, b) ==> c.latest[b] == s.view[b]
  }

  ghost predicate PinnedFor(c: BM.Cache, b: nat) {
    exists i :: i in c.pins && i < |c.bufs| && c.bufs[i].Caches(b)
  }

  /** The buffers of the log's entries from `done` on are pinned, and no others. */
  ghost predicate PinsOk(c: BM.Cache, lh: seq<Word>, done: nat) {
    && done <= |lh|
    && (forall i :: i in c.pins ==> i < |c.bufs| && LM.Named(lh, done, c.bufs[i].blockno))
    && (forall k {:trigger PinnedFor(c, lh[k])} :: done <= k < |lh| ==> PinnedFor(c, lh[k]))
    && (forall k, l :: done <= k < l < |lh| ==> lh[k] != lh[l])
  }

  ghost predicate RawAt(g: LM.Layout, c: BM.Cache, s: LM.State, h: nat, id: nat)
  {
    h > SECOND && Ready(c, h) && g.Home(BufOf(c, h).blockno) && s.phase.Running? && LM.ActiveIs(s, id)
  }

  ghost predicate RawOk(g: LM.Layout, c: BM.Cache, s: LM.State, raw: map<nat, nat>)
  {
    forall h {:trigger h in raw} :: h in raw ==> RawAt(g, c, s, h, raw[h])
  }

  /** How far unpinning may have got. */
  predicate DoneOk(s: LM.State, done: nat) {
    match s.phase
    case Running | WriteLog(_) => done == 0
    case Install(t) => done <= t
    case Recovering(_) => done == |s.lh|
    case Boot | Finish => s.lh == []
  }

  /** The invariants of the two machines, opened only where they are needed. */
  ghost predicate CacheOk(c: BM.Cache) {
    forall k: int {:trigger Asked(k)} :: Asked(k) ==> BM.Inv(c)
  }

  ghost predicate LogOk(g: LM.Layout, s: LM.State) {
    forall k: int {:trigger Sought(k)} :: Sought(k) ==> LM.Inv(g, s)
  }

  lemma CacheIs(c: BM.Cache)
    requires CacheOk(c)
    ensures BM.Inv(c)
  {
    assert Asked(0);
  }

  lemma LogIs(g: LM.Layout, s: LM.State)
    requires LogOk(g, s)
    ensures LM.Inv(g, s)
  {
    assert Sought(0);
  }

  lemma CacheStepOk(c: BM.Cache, e: BM.Event)
    requires CacheOk(c) && Can(c, e)
    ensures CacheOk(BM.Apply(c, e))
    ensures !e.Modify? ==> BM.Apply(c, e).latest == c.latest
    ensures !e.Write? ==> BM.Apply(c, e).disk == c.disk
    ensures e.Write? && Ready(c, e.h) ==>
              BufOf(c, e.h).blockno < |c.disk| && BM.Apply(c, e).disk
                  == c.disk[BufOf(c, e.h).blockno := BufOf(c, e.h).data]
  {
    CacheIs(c);
    BM.StepInv(c, e);
  }

  lemma LogStepOk(g: LM.Layout, s: LM.State, e: LM.Event)
    requires LogOk(g, s) && LM.Shape(g, s) && LM.Enabled(g, s, e)
    ensures LogOk(g, LM.Apply(g, s, e))
  {
    LogIs(g, s);
    LM.StepInv(g, s, e);
  }

  /** Holds of everything, like Asked; it opens what is said about the steps to come. */
  predicate Planned(k: int) { true }

  /** Runs, opened only where the next instruction is taken. */
  ghost predicate Plan(g: LM.Layout, s: LM.State, done: nat, hands: seq<Hold>, todo: seq<Instr>) {
    |hands| == 2 && forall k: int {:trigger Planned(k)} :: Planned(k) ==> Runs(g, s, done, hands, todo)
  }

  ghost predicate Parts(g: LM.Layout, c: BM.Cache, s: LM.State, todo: seq<Instr>, raw: map<nat, nat>, hands: seq<Hold>,
                        done: nat)
  {
    && CacheOk(c) && LogOk(g, s) && |c.disk| == g.size && c.disk == s.disk
    && Agree(g, c, s, raw, todo) && PinsOk(c, s.lh, done) && DoneOk(s, done)
    && RawOk(g, c, s, raw) && (todo != [] ==> s.active == [])
    && |hands| == 2 && Has(c, todo, FIRST, hands[FIRST]) && Has(c, todo, SECOND, hands[SECOND])
    && Plan(g, s, done, hands, todo)
  }

  ghost predicate Inv(g: LM.Layout, j: Joint) {
    Parts(g, j.c, j.s, j.todo, j.raw, j.hands, j.done)
  }

  // ---------------------------------------------------- the next instruction

  lemma PlanEnds(g: LM.Layout, s: LM.State, done: nat, hands: seq<Hold>)
    requires Plan(g, s, done, hands, [])
    ensures hands == [Out, Out] && Settled(s, done)
  {
    assert Planned(0);
  }

  lemma NextBread(g: LM.Layout, s: LM.State, done: nat, hands: seq<Hold>, todo: seq<Instr>)
    requires Plan(g, s, done, hands, todo) && todo != [] && todo[0].Bread?
    ensures var h, b := todo[0].h, todo[0].b;
            && h <= SECOND && hands[h] == Out && b < g.size == |s.view| && Apart(hands[1 - h], b)
            && Hands(s, hands, todo[0]) == hands[h := Got(b, s.view[b])]
    ensures Plan(g, s, done, Hands(s, hands, todo[0]), todo[1..])
  {
    assert Planned(0);
  }

  /** A store is followed by the bwrite of the same buffer. */
  lemma NextStore(g: LM.Layout, s: LM.State, done: nat, hands: seq<Hold>, todo: seq<Instr>) returns (h: nat, x: Block)
    requires Plan(g, s, done, hands, todo) && todo != [] && (todo[0].Move? || todo[0].Header?)
    ensures h <= SECOND && hands[h].Got? && |todo| > 1 && todo[1].Bwrite? && todo[1].h == h
    ensures todo[0].Move? ==> h == todo[0].dst && todo[0].src == 1 - h && hands[1 - h].Got? && x == hands[1 - h].x
    ensures todo[0].Header? ==> h == todo[0].h && |todo[0].lh| <= LOGBLOCKS
                                && x == LM.WithHeader(hands[h].x, todo[0].lh)
    ensures Hands(s, hands, todo[0]) == hands[h := Got(hands[h].b, x)]
    ensures Plan(g, s, done, Hands(s, hands, todo[0]), todo[1..])
  {
    assert Planned(0);
    if todo[0].Move? {
      h, x := todo[0].dst, hands[todo[0].src].x;
    } else {
      h, x := todo[0].h, LM.WithHeader(hands[todo[0].h].x, todo[0].lh);
    }
  }

  lemma NextBwrite(g: LM.Layout, s: LM.State, done: nat, hands: seq<Hold>, todo: seq<Instr>)
    requires Plan(g, s, done, hands, todo) && todo != [] && todo[0].Bwrite?
    ensures todo[0].h <= SECOND && hands[todo[0].h].Got? && LM.Shape(g, s) && LM.Enabled(g, s, todo[0].e)
    ensures var s', hold := LM.Apply(g, s, todo[0].e), hands[todo[0].h];
            && Writes(s, s', hold.b, hold.x) && (s'.lh == [] ==> done == |s.lh|)
            && Plan(g, s', Done(s', done, todo[0]), hands, todo[1..])
  {
    assert Planned(0);
  }

  lemma NextLook(g: LM.Layout, s: LM.State, done: nat, hands: seq<Hold>, todo: seq<Instr>)
    requires Plan(g, s, done, hands, todo) && todo != [] && todo[0].Look?
    ensures todo[0].h <= SECOND && LM.Shape(g, s) && LM.Enabled(g, s, LM.ReadHead) && s.lh == []
    ensures var s' := LM.Apply(g, s, LM.ReadHead);
            hands[todo[0].h] == Got(g.start, s.view[g.start]) && Plan(g, s', |s'.lh|, hands, todo[1..])
  {
    assert Planned(0);
  }

  lemma NextUnpin(g: LM.Layout, s: LM.State, done: nat, hands: seq<Hold>, todo: seq<Instr>)
    requires Plan(g, s, done, hands, todo) && todo != [] && todo[0].Bunpin?
    ensures todo[0].h <= SECOND && hands[todo[0].h].Got? && s.phase == LM.Install(done + 1) && done < |s.lh|
    ensures var b, x := hands[todo[0].h].b, hands[todo[0].h].x; b == s.lh[done] && b < |s.disk| && x == s.disk[b]
    ensures Plan(g, s, done + 1, hands, todo[1..])
  {
    assert Planned(0);
  }

  lemma NextRelease(g: LM.Layout, s: LM.State, done: nat, hands: seq<Hold>, todo: seq<Instr>)
    requires Plan(g, s, done, hands, todo) && todo != [] && (todo[0].Unlock? || todo[0].Put?)
    ensures todo[0].h <= SECOND
    ensures todo[0].Unlock? ==>
              && hands[todo[0].h].Got?
              && Hands(s, hands, todo[0]) == hands[todo[0].h := Ref(hands[todo[0].h].b)]
    ensures todo[0].Put? ==> hands[todo[0].h].Ref? && Hands(s, hands, todo[0]) == hands[todo[0].h := Out]
    ensures Plan(g, s, done, Hands(s, hands, todo[0]), todo[1..])
  {
    assert Planned(0);
  }

  // ------------------------------------------------- one handle among others

  /** A step of one handle leaves the buffers of the others alone. */
  lemma OthersKept(c: BM.Cache, e: BM.Event, h: nat)
    requires CacheOk(c) && Can(c, e) && h != e.h && h in c.refs
    ensures var c' := BM.Apply(c, e);
            && h in c'.refs && c'.refs[h] == c.refs[h] < |c'.bufs|
            && BufOf(c', h).dev == BufOf(c, h).dev && BufOf(c', h).blockno == BufOf(c, h).blockno
            && (BufOf(c, h).holder == Some(h) ==>
                  BufOf(c', h) == BufOf(c, h).(refcnt := BufOf(c', h).refcnt))
            && (BufOf(c, h).holder != Some(h) ==> BufOf(c', h).holder != Some(h))
  {
    CacheIs(c);
    if e.Get? {
      var i := BM.Apply(c, e).refs[e.h];
      if c.bufs[i].refcnt == 0 { BM.FreeIsIdle(c, i); }
    }
  }

  lemma HasKept(c: BM.Cache, e: BM.Event, todo: seq<Instr>, h: nat, hold: Hold)
    requires CacheOk(c) && Can(c, e) && h != e.h && Has(c, todo, h, hold)
    ensures Has(BM.Apply(c, e), todo, h, hold)
  {
    if h in c.refs { OthersKept(c, e, h); }
  }

  /** The same, whatever comes next, for a handle that is not being read into. */
  lemma HasNext(c: BM.Cache, e: BM.Event, todo: seq<Instr>, rest: seq<Instr>, h: nat, hold: Hold)
    requires CacheOk(c) && Can(c, e) && h != e.h && Has(c, todo, h, hold)
    requires todo == [] || !todo[0].Bread? || todo[0].h != h
    ensures Has(BM.Apply(c, e), rest, h, hold)
  {
    HasKept(c, e, todo, h, hold);
  }

  /** A pinned buffer stays with its block. */
  lemma PinKept(c: BM.Cache, e: BM.Event, i: nat)
    requires CacheOk(c) && Can(c, e) && i in c.pins && !e.Unpin?
    ensures var c' := BM.Apply(c, e);
            i in c'.pins && i < |c'.bufs| == |c.bufs| && c'.bufs[i].dev == c.bufs[i].dev
                && c'.bufs[i].blockno == c.bufs[i].blockno
  {
    CacheIs(c);
    if e.Get? {
      var k := BM.Apply(c, e).refs[e.h];
      if c.bufs[k].refcnt == 0 { BM.FreeIsIdle(c, k); }
    }
  }

  lemma PinsKept(c: BM.Cache, e: BM.Event, lh: seq<Word>, done: nat)
    requires CacheOk(c) && Can(c, e) && !e.Unpin? && !e.Pin? && PinsOk(c, lh, done)
    ensures PinsOk(BM.Apply(c, e), lh, done)
  {
    var c' := BM.Apply(c, e);
    assert c'.pins == c.pins;
    forall i | i in c'.pins ensures i < |c'.bufs| && LM.Named(lh, done, c'.bufs[i].blockno) { PinKept(c, e, i); }
    forall k | done <= k < |lh| ensures PinnedFor(c', lh[k]) {
      assert PinnedFor(c, lh[k]);
      var i :| i in c.pins && i < |c.bufs| && c.bufs[i].Caches(lh[k]);
      PinKept(c, e, i);
    }
  }

  /** What the holder of a filled buffer may do with it. */
  lemma ReadyIs(c: BM.Cache, h: nat, x: Block)
    requires CacheOk(c) && Ready(c, h)
    ensures Can(c, BM.Modify(h, x)) && Can(c, BM.Write(h)) && Can(c, BM.Pin(h))
    ensures c.refs[h] < |c.bufs| && BufOf(c, h).blockno < |c.disk| == |c.latest|
    ensures BufOf(c, h).data == c.latest[BufOf(c, h).blockno]
  {
    CacheIs(c);
    assert BM.BufCoherent(c, c.refs[h]);
  }

  /** Two handles that have the same block locked are one. */
  lemma OneHolder(c: BM.Cache, h: nat, k: nat)
    requires CacheOk(c) && Ready(c, h) && Ready(c, k) && BufOf(c, h).blockno == BufOf(c, k).blockno
    ensures h == k
  {
    CacheIs(c);
    assert BM.UniqueInv(c);
  }

  /** What a thread holds is in flux only by its own doing. */
  lemma NotFlux(g: LM.Layout, j: Joint, h: nat)
    requires Inv(g, j) && Ready(j.c, h) && h !in j.raw
    requires !(j.todo != [] && j.todo[0].Bwrite? && j.todo[0].h == h)
    ensures !Flux(j.c, j.raw, j.todo, BufOf(j.c, h).blockno)
  {
    var b := BufOf(j.c, h).blockno;
    forall k | k in j.raw ensures BufOf(j.c, k).blockno != b {
      assert RawAt(g, j.c, j.s, k, j.raw[k]);
      if BufOf(j.c, k).blockno == b { OneHolder(j.c, h, k); }
    }
    if j.todo != [] && j.todo[0].Bwrite? {
      NextBwrite(g, j.s, j.done, j.hands, j.todo);
      var k := j.todo[0].h;
      if BufOf(j.c, k).blockno == b { OneHolder(j.c, h, k); }
    }
  }

  /** Blocks that are not pinned are clean. */
  lemma ViewClean(g: LM.Layout, s: LM.State, done: nat, b: nat)
    requires LM.Inv(g, s) && DoneOk(s, done) && b < g.size && !LM.Named(s.lh, done, b)
    ensures s.view[b] == s.disk[b]
  {
    assert g.Home(b) || g.InLog(b);
    if s.phase.Install? && LM.Named(s.lh, 0, b) {
      var k :| 0 <= k < |s.lh| && s.lh[k] == b;
    }
  }

  /** Whoever holds a block that is not in flux has its contents, and they are on disk or pinned. */
  lemma CleanOrPinned(g: LM.Layout, j: Joint, h: nat)
    requires Inv(g, j) && Ready(j.c, h) && !Flux(j.c, j.raw, j.todo, BufOf(j.c, h).blockno)
    ensures BufOf(j.c, h).blockno < g.size && BufOf(j.c, h).data == j.s.view[BufOf(j.c, h).blockno]
    ensures |j.c.disk| == g.size && (BufOf(j.c, h).data == j.c.disk[BufOf(j.c, h).blockno] || j.c.refs[h] in j.c.pins)
  {
    LogIs(g, j.s);
    CacheIs(j.c);
    var i := j.c.refs[h];
    var b := j.c.bufs[i].blockno;
    assert BM.BufCoherent(j.c, i);
    assert j.c.latest[b] == j.s.view[b];
    if LM.Named(j.s.lh, j.done, b) {
      NamedIsPinned(j.c, h, j.s.lh, j.done);
    } else {
      ViewClean(g, j.s, j.done, b);
    }
  }

  lemma NamedIsPinned(c: BM.Cache, h: nat, lh: seq<Word>, done: nat)
    requires CacheOk(c) && Ready(c, h) && PinsOk(c, lh, done) && LM.Named(lh, done, BufOf(c, h).blockno)
    ensures c.refs[h] in c.pins
  {
    CacheIs(c);
    var k :| done <= k < |lh| && lh[k] == BufOf(c, h).blockno;
    assert PinnedFor(c, lh[k]);
    var l :| l in c.pins && l < |c.bufs| && c.bufs[l].Caches(lh[k]);
    assert BM.UniqueInv(c);
  }

  // ------------------------------------------------------------ other threads

  /** A step of a handle that has nothing in flux changes nothing about what is. */
  lemma FluxKept(c: BM.Cache, e: BM.Event, raw: map<nat, nat>, todo: seq<Instr>, b: nat)
    requires CacheOk(c) && Can(c, e)
    requires forall h :: h in raw ==> h != e.h && h in c.refs
    requires todo != [] && todo[0].Bwrite? ==> todo[0].h != e.h && todo[0].h in c.refs
    ensures Flux(BM.Apply(c, e), raw, todo, b) <==> Flux(c, raw, todo, b)
  {
    var c' := BM.Apply(c, e);
    forall h | h in raw ensures BufOf(c', h).blockno == BufOf(c, h).blockno { OthersKept(c, e, h); }
    if todo != [] && todo[0].Bwrite? { OthersKept(c, e, todo[0].h); }
  }

  lemma RawKept(g: LM.Layout, c: BM.Cache, e: BM.Event, s: LM.State, raw: map<nat, nat>)
    requires CacheOk(c) && Can(c, e) && RawOk(g, c, s, raw) && e.h !in raw
    ensures RawOk(g, BM.Apply(c, e), s, raw)
  {
    forall h | h in raw ensures RawAt(g, BM.Apply(c, e), s, h, raw[h]) {
      assert RawAt(g, c, s, h, raw[h]);
      OthersKept(c, e, h);
    }
  }

  /** Readers' steps are within the rules of the cache: what they release is on disk or pinned. */
  lemma UserSound(g: LM.Layout, j: Joint, x: BM.Event)
    requires Inv(g, j) && Enabled(g, j, Cache(x))
    ensures Can(j.c, x) && x.h !in j.raw
    ensures !x.Modify? && !x.Write? && !x.Pin? && !x.Unpin?
  {
    CacheIs(j.c);
    assert x.h in j.raw ==> RawAt(g, j.c, j.s, x.h, j.raw[x.h]);
    if j.todo != [] && j.todo[0].Bwrite? { NextBwrite(g, j.s, j.done, j.hands, j.todo); }
    if x.Unlock? && BufOf(j.c, x.h).valid {
      NotFlux(g, j, x.h);
      CleanOrPinned(g, j, x.h);
    }
  }

  lemma UserStep(g: LM.Layout, j: Joint, x: BM.Event)
    requires Inv(g, j) && Enabled(g, j, Cache(x)) && Can(j.c, x) && x.h !in j.raw
    requires !x.Modify? && !x.Write? && !x.Pin? && !x.Unpin?
    ensures Inv(g, Apply(g, j, Cache(x)))
  {
    var c' := BM.Apply(j.c, x);
    CacheStepOk(j.c, x);
    forall h | h in j.raw ensures h in j.c.refs { assert RawAt(g, j.c, j.s, h, j.raw[h]); }
    if j.todo != [] && j.todo[0].Bwrite? { NextBwrite(g, j.s, j.done, j.hands, j.todo); }
    forall b | 0 <= b < g.size && !Flux(c', j.raw, j.todo, b) ensures c'.latest[b] == j.s.view[b] {
      FluxKept(j.c, x, j.raw, j.todo, b);
    }
    RawKept(g, j.c, x, j.s, j.raw);
    PinsKept(j.c, x, j.s.lh, j.done);
    HasKept(j.c, x, j.todo, FIRST, j.hands[FIRST]);
    HasKept(j.c, x, j.todo, SECOND, j.hands[SECOND]);
  }

  // ------------------------------------------------------------- system calls

  /** While a system call is under way the log's own thread is idle. */
  lemma LogIdle(g: LM.Layout, j: Joint)
    requires Inv(g, j) && j.s.active != []
    ensures j.todo == [] && FIRST !in j.c.refs && SECOND !in j.c.refs && j.hands == [Out, Out] && Settled(j.s, j.done)
  {
    PlanEnds(g, j.s, j.done, j.hands);
  }

  lemma StoreStep(g: LM.Layout, j: Joint, h: nat, x: Block, i: nat)
    requires Inv(g, j) && Enabled(g, j, Store(h, x, i))
    ensures Can(j.c, BM.Modify(h, x)) && Inv(g, Apply(g, j, Store(h, x, i)))
  {
    LogIdle(g, j);
    ReadyIs(j.c, h, x);
    var e := BM.Modify(h, x);
    var c', raw' := BM.Apply(j.c, e), j.raw[h := j.s.active[i].id];
    CacheStepOk(j.c, e);
    PinsKept(j.c, e, j.s.lh, j.done);
    assert LM.ActiveIs(j.s, j.s.active[i].id);
    forall k | k in raw' ensures RawAt(g, c', j.s, k, raw'[k]) {
      if k != h {
        assert RawAt(g, j.c, j.s, k, j.raw[k]);
        OthersKept(j.c, e, k);
      }
    }
    forall b | 0 <= b < g.size && !Flux(c', raw', j.todo, b) ensures c'.latest[b] == j.s.view[b] {
      assert h in raw' && BufOf(c', h).blockno != b;
      if Flux(j.c, j.raw, j.todo, b) {
        var k :| k in j.raw && BufOf(j.c, k).blockno == b;
        assert RawAt(g, j.c, j.s, k, j.raw[k]);
        if k != h { OthersKept(j.c, e, k); }
      }
    }
  }

  /** log_write of a block that is in the log already: it is pinned. */
  lemma PinsSame(c: BM.Cache, h: nat, lh: seq<Word>)
    requires CacheOk(c) && Can(c, BM.Pin(h)) && Ready(c, h) && PinsOk(c, lh, 0) && LM.Named(lh, 0, BufOf(c, h).blockno)
    ensures BM.Apply(c, BM.Pin(h)).pins == c.pins && PinsOk(BM.Apply(c, BM.Pin(h)), lh, 0)
  {
    NamedIsPinned(c, h, lh, 0);
    var c' := BM.Apply(c, BM.Pin(h));
    forall k | 0 <= k < |lh| ensures PinnedFor(c', lh[k]) {
      assert PinnedFor(c, lh[k]);
      var l :| l in c.pins && l < |c.bufs| && c.bufs[l].Caches(lh[k]);
      PinKept(c, BM.Pin(h), l);
    }
    forall i | i in c'.pins ensures i < |c'.bufs| && LM.Named(lh, 0, c'.bufs[i].blockno) { PinKept(c, BM.Pin(h), i); }
  }

  /** log_write of another block: its buffer gets a pin, and its number an entry. */
  lemma PinsMore(c: BM.Cache, h: nat, lh: seq<Word>, bno: Word)
    requires CacheOk(c) && Can(c, BM.Pin(h)) && PinsOk(c, lh, 0) && BufOf(c, h).Caches(bno) && !LM.Named(lh, 0, bno)
    ensures PinsOk(BM.Apply(c, BM.Pin(h)), lh + [bno], 0)
  {
    var i, c', lh' := c.refs[h], BM.Apply(c, BM.Pin(h)), lh + [bno];
    forall l | l in c'.pins ensures l < |c'.bufs| && LM.Named(lh', 0, c'.bufs[l].blockno) {
      if l in c.pins {
        PinKept(c, BM.Pin(h), l);
        var k :| 0 <= k < |lh| && lh[k] == c.bufs[l].blockno;
        assert lh'[k] == c.bufs[l].blockno;
      } else {
        assert lh'[|lh|] == bno;
      }
    }
    forall k | 0 <= k < |lh'| ensures PinnedFor(c', lh'[k]) {
      if k < |lh| {
        assert PinnedFor(c, lh[k]);
        var l :| l in c.pins && l < |c.bufs| && c.bufs[l].Caches(lh[k]);
        PinKept(c, BM.Pin(h), l);
        assert l in c'.pins && c'.bufs[l].Caches(lh'[k]);
      } else {
        assert i in c'.pins && c'.bufs[i].Caches(lh'[k]);
      }
    }
  }

  lemma PinsAdd(c: BM.Cache, h: nat, lh: seq<Word>, bno: Word)
    requires CacheOk(c) && Can(c, BM.Pin(h)) && Ready(c, h) && PinsOk(c, lh, 0) && BufOf(c, h).blockno == bno
    ensures PinsOk(BM.Apply(c, BM.Pin(h)), LM.Absorb(lh, bno), 0)
  {
    if bno in lh {
      var k :| 0 <= k < |lh| && lh[k] == bno;
      assert LM.Named(lh, 0, bno);
      PinsSame(c, h, lh);
    } else {
      PinsMore(c, h, lh, bno);
    }
  }

  /** The handle that has called log_write is no longer in flux; the others are as they were. */
  lemma LogWriteRaw(g: LM.Layout, j: Joint, h: nat, s': LM.State)
    requires Inv(g, j) && Can(j.c, BM.Pin(h))
    requires s'.phase.Running? && |s'.active| >= |j.s.active|
    requires forall k :: 0 <= k < |j.s.active| ==> s'.active[k].id == j.s.active[k].id
    ensures RawOk(g, BM.Apply(j.c, BM.Pin(h)), s', j.raw - {h})
  {
    var c', raw' := BM.Apply(j.c, BM.Pin(h)), j.raw - {h};
    forall k | k in raw' ensures RawAt(g, c', s', k, raw'[k]) {
      assert RawAt(g, j.c, j.s, k, j.raw[k]);
      OthersKept(j.c, BM.Pin(h), k);
      StillActive(j.s, s', raw'[k]);
    }
  }

  lemma LogWriteAgree(g: LM.Layout, j: Joint, h: nat, view: Disk)
    requires Inv(g, j) && j.todo == [] && Ready(j.c, h) && Can(j.c, BM.Pin(h))
    requires BufOf(j.c, h).blockno < |j.s.view| && view == j.s.view[BufOf(j.c, h).blockno := BufOf(j.c, h).data]
    ensures var c' := BM.Apply(j.c, BM.Pin(h));
            |c'.latest| == |view| == g.size
            && forall b :: 0 <= b < g.size && !Flux(c', j.raw - {h}, j.todo, b) ==> c'.latest[b] == view[b]
  {
    ReadyIs(j.c, h, BufOf(j.c, h).data);
    var c', raw', bno := BM.Apply(j.c, BM.Pin(h)), j.raw - {h}, BufOf(j.c, h).blockno;
    forall b | 0 <= b < g.size && !Flux(c', raw', j.todo, b) ensures c'.latest[b] == view[b] {
      if b != bno && Flux(j.c, j.raw, j.todo, b) {
        var k :| k in j.raw && BufOf(j.c, k).blockno == b;
        assert RawAt(g, j.c, j.s, k, j.raw[k]);
        OthersKept(j.c, BM.Pin(h), k);
      }
    }
  }

  lemma LogWriteStep(g: LM.Layout, j: Joint, h: nat, bno: Word, le: LM.Event, s': LM.State)
    requires Inv(g, j) && j.s.phase.Running? && j.s.active != [] && Ready(j.c, h) && Can(j.c, BM.Pin(h)) && h > SECOND
    requires BufOf(j.c, h).blockno == bno && le.LogWrite? && le.bno == bno && le.data == BufOf(j.c, h).data
    requires LM.Shape(g, j.s) && LM.Enabled(g, j.s, le) && s' == LM.Apply(g, j.s, le)
    ensures Parts(g, BM.Apply(j.c, BM.Pin(h)), s', j.todo, j.raw - {h}, j.hands, j.done)
  {
    LogIdle(g, j);
    CacheStepOk(j.c, BM.Pin(h));
    LogStepOk(g, j.s, le);
    PinsAdd(j.c, h, j.s.lh, bno);
    LogWriteRaw(g, j, h, s');
    LogWriteAgree(g, j, h, s'.view);
    HasNext(j.c, BM.Pin(h), j.todo, j.todo, FIRST, Out);
    HasNext(j.c, BM.Pin(h), j.todo, j.todo, SECOND, Out);
  }

  lemma LogWriteSound(g: LM.Layout, j: Joint, h: nat, i: nat)
    requires Inv(g, j) && Enabled(g, j, LogWrite(h, i))
    ensures Can(j.c, BM.Pin(h)) && BufOf(j.c, h).blockno < 0x1_0000_0000
    ensures LM.Enabled(g, j.s, LM.LogWrite(i, BufOf(j.c, h).blockno, BufOf(j.c, h).data))
    ensures Inv(g, Apply(g, j, LogWrite(h, i)))
  {
    LogIs(g, j.s);
    ReadyIs(j.c, h, Zero());
    var bno: Word := BufOf(j.c, h).blockno;
    var le := LM.LogWrite(i, bno, BufOf(j.c, h).data);
    LogWriteStep(g, j, h, bno, le, LM.Apply(g, j.s, le));
  }

  lemma StillActive(s: LM.State, s': LM.State, id: nat)
    requires LM.ActiveIs(s, id) && |s'.active| >= |s.active|
    requires forall k :: 0 <= k < |s.active| ==> s'.active[k].id == s.active[k].id
    ensures LM.ActiveIs(s', id)
  {
    var k :| 0 <= k < |s.active| && s.active[k].id == id;
    assert s'.active[k].id == id;
  }

  /** begin_op, end_op, and the end of a commit do not touch the cache. */
  lemma OpStep(g: LM.Layout, j: Joint, e: Event, le: LM.Event)
    requires Inv(g, j) && Enabled(g, j, e) && (e.BeginOp? || e.EndOp? || e.Return?) && LogStep(j, e) == Some(le)
    ensures LM.Enabled(g, j.s, le) && Inv(g, Apply(g, j, e))
  {
    LogIs(g, j.s);
    var s' := LM.Apply(g, j.s, le);
    LogStepOk(g, j.s, le);
    forall h | h in j.raw ensures RawAt(g, j.c, s', h, j.raw[h]) {
      assert RawAt(g, j.c, j.s, h, j.raw[h]);
      if e.BeginOp? {
        StillActive(j.s, s', j.raw[h]);
      } else {
        OpStays(j.s, j.raw[h], e.i);
      }
    }
    assert j.todo == [] by { if j.s.active != [] { LogIdle(g, j); } }
  }

  /** A system call with something in flux is not the one that ends. */
  lemma OpStays(s: LM.State, id: nat, i: nat)
    requires LM.ActiveIs(s, id) && i < |s.active| && s.active[i].id != id
    ensures |s.active| > 1 && LM.ActiveIs(s.(active := LM.Remove(s.active, i)), id)
  {
    var k :| 0 <= k < |s.active| && s.active[k].id == id;
    var r := LM.Remove(s.active, i);
    assert r[if k < i then k else k - 1].id == id;
  }

  lemma CrashStep(g: LM.Layout, j: Joint, c: BM.Cache)
    requires Inv(g, j) && Enabled(g, j, Crash(c))
    ensures Inv(g, Apply(g, j, Crash(c)))
  {
    LogIs(g, j.s);
    BM.InitialInv(c);
    LogStepOk(g, j.s, LM.Crash);
  }

  // ------------------------------------------------------ the log's own thread

  lemma NothingRaw(g: LM.Layout, j: Joint)
    requires Inv(g, j) && j.todo != []
    ensures j.raw == map[]
  {
    forall h ensures h !in j.raw {}
    assert j.raw == map[];
  }

  /** Except in the middle of a bwrite, the cache then holds what the log machine says. */
  lemma Level(g: LM.Layout, j: Joint)
    requires Inv(g, j) && j.todo != [] && !j.todo[0].Bwrite?
    ensures j.raw == map[] && j.c.latest == j.s.view
  {
    NothingRaw(g, j);
    forall b | 0 <= b < g.size ensures j.c.latest[b] == j.s.view[b] {
      assert !Flux(j.c, j.raw, j.todo, b);
    }
  }

  /** bread under way: each of its steps is within the rules. */
  lemma BreadSound(g: LM.Layout, j: Joint)
    requires Inv(g, j) && Enabled(g, j, Go) && j.todo != [] && j.todo[0].Bread?
    ensures var r := Reading(j.c, j.todo[0].h, j.todo[0].b);
            && (r.Some? ==> Can(j.c, r.value) && r.value.h == j.todo[0].h)
            && (r.None? ==> Ready(j.c, j.todo[0].h) && BufOf(j.c, j.todo[0].h).Caches(j.todo[0].b))
  {
    CacheIs(j.c);
    NextBread(g, j.s, j.done, j.hands, j.todo);
  }

  // The handle that the step is about.

  lemma OwnBread(c: BM.Cache, e: BM.Event, todo: seq<Instr>)
    requires CacheOk(c) && Can(c, e) && todo != [] && todo[0].Bread? && Has(c, todo, todo[0].h, Out)
    requires Reading(c, todo[0].h, todo[0].b) == Some(e)
    ensures Has(BM.Apply(c, e), todo, todo[0].h, Out)
  {
    CacheIs(c);
  }

  lemma OwnModify(c: BM.Cache, h: nat, x: Block, todo: seq<Instr>, rest: seq<Instr>, hold: Hold)
    requires CacheOk(c) && Can(c, BM.Modify(h, x)) && hold.Got? && Has(c, todo, h, hold)
    ensures Has(BM.Apply(c, BM.Modify(h, x)), rest, h, Got(hold.b, x))
    ensures hold.b < |c.latest| && BM.Apply(c, BM.Modify(h, x)).latest == c.latest[hold.b := x]
  {
    ReadyIs(c, h, x);
  }

  lemma OwnKept(c: BM.Cache, e: BM.Event, todo: seq<Instr>, rest: seq<Instr>, hold: Hold)
    requires CacheOk(c) && Can(c, e) && (e.Write? || e.Unpin?) && hold.Got? && Has(c, todo, e.h, hold)
    ensures Has(BM.Apply(c, e), rest, e.h, hold)
  {
    ReadyIs(c, e.h, Zero());
  }

  lemma OwnRelease(c: BM.Cache, e: BM.Event, todo: seq<Instr>, rest: seq<Instr>, hold: Hold)
    requires CacheOk(c) && Can(c, e) && Has(c, todo, e.h, hold)
    ensures e.Unlock? && hold.Got? ==> Has(BM.Apply(c, e), rest, e.h, Ref(hold.b))
    ensures e.Put? && hold.Ref? ==> Has(BM.Apply(c, e), rest, e.h, Out)
  {
    CacheIs(c);
  }

  /** The invariant once more, from its parts, when the cache is level except for a store that is being written. */
  lemma Whole(g: LM.Layout, c: BM.Cache, s: LM.State, todo: seq<Instr>, hands: seq<Hold>, done: nat, h: nat)
    requires CacheOk(c) && LogOk(g, s) && c.disk == s.disk && |c.disk| == |c.latest| == |s.view| == g.size
    requires PinsOk(c, s.lh, done) && DoneOk(s, done) && s.active == [] && Plan(g, s, done, hands, todo)
    requires |hands| == 2 && h <= SECOND && Has(c, todo, h, hands[h]) && Has(c, todo, 1 - h, hands[1 - h])
    requires c.latest == s.view
             || (todo != [] && todo[0].Bwrite? && todo[0].h <= SECOND && hands[todo[0].h].Got?
                 && hands[todo[0].h].b < g.size && c.latest == s.view[hands[todo[0].h].b := hands[todo[0].h].x])
    ensures Parts(g, c, s, todo, map[], hands, done)
  {
  }

  lemma BreadStep(g: LM.Layout, j: Joint, e: BM.Event)
    requires Inv(g, j) && j.todo != [] && j.todo[0].Bread?
    requires Reading(j.c, j.todo[0].h, j.todo[0].b) == Some(e) && Can(j.c, e) && e.h == j.todo[0].h
    ensures Parts(g, BM.Apply(j.c, e), j.s, j.todo, j.raw, j.hands, j.done)
  {
    Level(g, j);
    NextBread(g, j.s, j.done, j.hands, j.todo);
    CacheStepOk(j.c, e);
    PinsKept(j.c, e, j.s.lh, j.done);
    HasKept(j.c, e, j.todo, 1 - e.h, j.hands[1 - e.h]);
    OwnBread(j.c, e, j.todo);
    Whole(g, BM.Apply(j.c, e), j.s, j.todo, j.hands, j.done, e.h);
  }

  lemma BreadDone(g: LM.Layout, j: Joint)
    requires Inv(g, j) && j.todo != [] && j.todo[0].Bread?
    requires Ready(j.c, j.todo[0].h) && BufOf(j.c, j.todo[0].h).Caches(j.todo[0].b)
    ensures Parts(g, j.c, j.s, j.todo[1..], j.raw, Hands(j.s, j.hands, j.todo[0]), j.done)
  {
    Level(g, j);
    NextBread(g, j.s, j.done, j.hands, j.todo);
    ReadyIs(j.c, j.todo[0].h, Zero());
  }

  /** A store by the log's thread: its block is in flux until the bwrite that comes next. */
  lemma ModifyStep(g: LM.Layout, j: Joint, h: nat, x: Block)
    requires Inv(g, j) && j.todo != [] && !j.todo[0].Bwrite? && !j.todo[0].Bread? && h <= SECOND && j.hands[h].Got?
    requires |j.todo| > 1 && j.todo[1].Bwrite? && j.todo[1].h == h
    requires Plan(g, j.s, j.done, j.hands[h := Got(j.hands[h].b, x)], j.todo[1..])
    ensures Can(j.c, BM.Modify(h, x))
    ensures Parts(g, BM.Apply(j.c, BM.Modify(h, x)), j.s, j.todo[1..], j.raw, j.hands[h := Got(j.hands[h].b, x)],
                  j.done)
  {
    Level(g, j);
    ReadyIs(j.c, h, x);
    var e := BM.Modify(h, x);
    CacheStepOk(j.c, e);
    PinsKept(j.c, e, j.s.lh, j.done);
    HasNext(j.c, e, j.todo, j.todo[1..], 1 - h, j.hands[1 - h]);
    OwnModify(j.c, h, x, j.todo, j.todo[1..], j.hands[h]);
    Whole(g, BM.Apply(j.c, e), j.s, j.todo[1..], j.hands[h := Got(j.hands[h].b, x)], j.done, h);
  }

  lemma StoreSound(g: LM.Layout, j: Joint)
    requires Inv(g, j) && j.todo != [] && (j.todo[0].Move? || j.todo[0].Header?)
    ensures CacheStep(j, Go).Some? && Can(j.c, CacheStep(j, Go).value)
    ensures Parts(g, BM.Apply(j.c, CacheStep(j, Go).value), j.s, j.todo[1..], j.raw, Hands(j.s, j.hands, j.todo[0]),
                  j.done)
  {
    var h, x := NextStore(g, j.s, j.done, j.hands, j.todo);
    ModifyStep(g, j, h, x);
  }

  /** The block that is written is the one in flux. */
  lemma LevelBut(g: LM.Layout, j: Joint, h: nat)
    requires Inv(g, j) && j.todo != [] && j.todo[0].Bwrite? && j.todo[0].h == h <= SECOND && j.hands[h].Got?
    requires j.hands[h].b < |j.s.view|
    ensures j.raw == map[] && j.c.latest == j.s.view[j.hands[h].b := j.hands[h].x]
  {
    NothingRaw(g, j);
    ReadyIs(j.c, h, Zero());
    forall b | 0 <= b < g.size && b != j.hands[h].b ensures j.c.latest[b] == j.s.view[b] {
      assert !Flux(j.c, j.raw, j.todo, b);
    }
  }

  /** bwrite, which is a step of the log machine. */
  lemma BwriteStep(g: LM.Layout, j: Joint, s': LM.State)
    requires Inv(g, j) && j.todo != [] && j.todo[0].Bwrite? && LM.Shape(g, j.s) && LM.Enabled(g, j.s, j.todo[0].e)
    requires s' == LM.Apply(g, j.s, j.todo[0].e)
    ensures Can(j.c, BM.Write(j.todo[0].h))
    ensures Parts(g, BM.Apply(j.c, BM.Write(j.todo[0].h)), s', j.todo[1..], j.raw, j.hands, Done(s', j.done, j.todo[0]))
  {
    NextBwrite(g, j.s, j.done, j.hands, j.todo);
    var h := j.todo[0].h;
    var e := BM.Write(h);
    LevelBut(g, j, h);
    ReadyIs(j.c, h, Zero());
    CacheStepOk(j.c, e);
    LogStepOk(g, j.s, j.todo[0].e);
    PinsKept(j.c, e, j.s.lh, j.done);
    HasNext(j.c, e, j.todo, j.todo[1..], 1 - h, j.hands[1 - h]);
    OwnKept(j.c, e, j.todo, j.todo[1..], j.hands[h]);
    Whole(g, BM.Apply(j.c, e), s', j.todo[1..], j.hands, Done(s', j.done, j.todo[0]), h);
  }

  lemma LookStep(g: LM.Layout, j: Joint, s': LM.State)
    requires Inv(g, j) && j.todo != [] && j.todo[0].Look? && LM.Shape(g, j.s) && LM.Enabled(g, j.s, LM.ReadHead)
    requires s' == LM.Apply(g, j.s, LM.ReadHead)
    ensures Parts(g, j.c, s', j.todo[1..], j.raw, j.hands, |s'.lh|)
  {
    Level(g, j);
    NextLook(g, j.s, j.done, j.hands, j.todo);
    LogStepOk(g, j.s, LM.ReadHead);
  }

  /** bunpin finds the pin, and the data on disk. */
  lemma UnpinSound(g: LM.Layout, j: Joint)
    requires Inv(g, j) && j.todo != [] && j.todo[0].Bunpin?
    ensures var h := j.todo[0].h; Can(j.c, BM.Unpin(h)) && j.done < |j.s.lh| && BufOf(j.c, h).Caches(j.s.lh[j.done])
  {
    CacheIs(j.c);
    NextUnpin(g, j.s, j.done, j.hands, j.todo);
    var h := j.todo[0].h;
    assert PinnedFor(j.c, j.s.lh[j.done]);
    var l :| l in j.c.pins && l < |j.c.bufs| && j.c.bufs[l].Caches(j.s.lh[j.done]);
    assert l == j.c.refs[h];
  }

  lemma PinsDrop(c: BM.Cache, h: nat, lh: seq<Word>, done: nat)
    requires CacheOk(c) && Can(c, BM.Unpin(h)) && PinsOk(c, lh, done) && done < |lh| && BufOf(c, h).Caches(lh[done])
    ensures PinsOk(BM.Apply(c, BM.Unpin(h)), lh, done + 1)
  {
    CacheIs(c);
    var i, c' := c.refs[h], BM.Apply(c, BM.Unpin(h));
    forall l | l in c'.pins ensures l < |c'.bufs| && LM.Named(lh, done + 1, c'.bufs[l].blockno) {
      assert LM.Named(lh, done, c.bufs[l].blockno);
      var k :| done <= k < |lh| && lh[k] == c.bufs[l].blockno;
      assert BM.UseInv(c) && BM.UniqueInv(c);
      assert k != done;
    }
    forall k | done + 1 <= k < |lh| ensures PinnedFor(c', lh[k]) {
      assert PinnedFor(c, lh[k]);
      var l :| l in c.pins && l < |c.bufs| && c.bufs[l].Caches(lh[k]);
      assert l != i;
      assert l in c'.pins && c'.bufs[l].Caches(lh[k]);
    }
  }

  /** What handle `h` has is on disk. */
  ghost predicate OnDisk(c: BM.Cache, h: nat) {
    BufOf(c, h).blockno < |c.disk| && BufOf(c, h).data == c.disk[BufOf(c, h).blockno]
  }

  lemma UnpinStep(g: LM.Layout, j: Joint)
    requires Inv(g, j) && j.todo != [] && j.todo[0].Bunpin?
    ensures Can(j.c, BM.Unpin(j.todo[0].h)) && OnDisk(j.c, j.todo[0].h)
    ensures Parts(g, BM.Apply(j.c, BM.Unpin(j.todo[0].h)), j.s, j.todo[1..], j.raw, j.hands, j.done + 1)
  {
    Level(g, j);
    UnpinSound(g, j);
    NextUnpin(g, j.s, j.done, j.hands, j.todo);
    var h := j.todo[0].h;
    var e := BM.Unpin(h);
    CacheStepOk(j.c, e);
    PinsDrop(j.c, h, j.s.lh, j.done);
    HasNext(j.c, e, j.todo, j.todo[1..], 1 - h, j.hands[1 - h]);
    OwnKept(j.c, e, j.todo, j.todo[1..], j.hands[h]);
    Whole(g, BM.Apply(j.c, e), j.s, j.todo[1..], j.hands, j.done + 1, h);
  }

  /** brelse: what is released is on disk or pinned. */
  lemma ReleaseSound(g: LM.Layout, j: Joint)
    requires Inv(g, j) && j.todo != [] && (j.todo[0].Unlock? || j.todo[0].Put?)
    ensures CacheStep(j, Go).Some? && Can(j.c, CacheStep(j, Go).value)
  {
    CacheIs(j.c);
    NextRelease(g, j.s, j.done, j.hands, j.todo);
    if j.todo[0].Unlock? {
      NothingRaw(g, j);
      NotFlux(g, j, j.todo[0].h);
      CleanOrPinned(g, j, j.todo[0].h);
    }
  }

  lemma ReleaseStep(g: LM.Layout, j: Joint, e: BM.Event)
    requires Inv(g, j) && j.todo != [] && (j.todo[0].Unlock? || j.todo[0].Put?) && CacheStep(j, Go) == Some(e)
             && Can(j.c, e)
    ensures Parts(g, BM.Apply(j.c, e), j.s, j.todo[1..], j.raw, Hands(j.s, j.hands, j.todo[0]), j.done)
  {
    Level(g, j);
    NextRelease(g, j.s, j.done, j.hands, j.todo);
    CacheStepOk(j.c, e);
    PinsKept(j.c, e, j.s.lh, j.done);
    HasNext(j.c, e, j.todo, j.todo[1..], 1 - e.h, j.hands[1 - e.h]);
    OwnRelease(j.c, e, j.todo, j.todo[1..], j.hands[e.h]);
    Whole(g, BM.Apply(j.c, e), j.s, j.todo[1..], Hands(j.s, j.hands, j.todo[0]), j.done, e.h);
  }
}
