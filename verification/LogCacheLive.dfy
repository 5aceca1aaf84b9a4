/** The log's thread gets its turns done: what a commit or a recovery needs of the cache, and when it has it. */
module LogCacheLive {
  import opened Common
  import opened DiskTypes
  import opened LogCache
  import opened LogCacheInv
  import opened LogCacheRuns
  import BM = BioModel
  import LM = LogModel

  /** Events of the log's own thread. */
  ghost predicate Own(es: seq<Event>) {
    forall k :: 0 <= k < |es| ==> es[k].Turn? || es[k].Go? || es[k].Return?
  }

  /** One event, opened only where it is taken. */
  ghost predicate Moves(g: LM.Layout, j: Joint, e: Event, j': Joint) {
    forall k: int {:trigger Planned(k)} :: Planned(k) ==> Enabled(g, j, e) && j' == Apply(g, j, e)
  }

  /** The events `es`, one after the other, lead from `j` to `j'`. */
  ghost predicate Leads(g: LM.Layout, j: Joint, es: seq<Event>, j': Joint)
    decreases |es|
  {
    if es == [] then j' == j else exists m :: Moves(g, j, es[0], m) && Leads(g, m, es[1..], j')
  }

  lemma First(g: LM.Layout, j: Joint, es: seq<Event>, j': Joint) returns (m: Joint)
    requires es != [] && Leads(g, j, es, j')
    ensures Moves(g, j, es[0], m) && Leads(g, m, es[1..], j')
  {
    m :| Moves(g, j, es[0], m) && Leads(g, m, es[1..], j');
  }

  lemma Prepend(g: LM.Layout, j: Joint, e: Event, m: Joint, fs: seq<Event>, n: Joint)
    requires Moves(g, j, e, m) && Leads(g, m, fs, n)
    ensures Leads(g, j, [e] + fs, n)
  {
    assert ([e] + fs)[1..] == fs;
  }

  lemma OwnMore(e: Event, fs: seq<Event>)
    requires (e.Turn? || e.Go? || e.Return?) && Own(fs)
    ensures Own([e] + fs)
  {
  }

  lemma {:induction false} Append(g: LM.Layout, j: Joint, es: seq<Event>, m: Joint, fs: seq<Event>, n: Joint)
    requires Leads(g, j, es, m) && Leads(g, m, fs, n)
    ensures Leads(g, j, es + fs, n)
    decreases |es|
  {
    if es == [] {
      assert es + fs == fs;
    } else {
      var j1 := First(g, j, es, m);
      Append(g, j1, es[1..], m, fs, n);
      assert es + fs == [es[0]] + (es[1..] + fs);
      Prepend(g, j, es[0], j1, es[1..] + fs, n);
    }
  }

  ghost predicate Reaches(g: LM.Layout, j: Joint, es: seq<Event>, m: Joint) {
    forall k: int {:trigger Planned(k)} :: Planned(k) ==> Exec(g, j, es) == Some(m)
  }

  lemma ReachMore(g: LM.Layout, j: Joint, es: seq<Event>, m: Joint, e: Event, n: Joint)
    requires Reaches(g, j, es, m) && Moves(g, m, e, n)
    ensures Reaches(g, j, es + [e], n)
  {
    assert Planned(0);
    assert (es + [e])[..|es|] == es;
  }

  /** Such events continue a run. */
  lemma {:induction false} RunOn(g: LM.Layout, j: Joint, es: seq<Event>, m: Joint, fs: seq<Event>, n: Joint)
    requires Reaches(g, j, es, m) && Leads(g, m, fs, n)
    ensures Reaches(g, j, es + fs, n)
    decreases |fs|
  {
    if fs == [] {
      assert es + fs == es;
    } else {
      var m1 := First(g, m, fs, n);
      ReachMore(g, j, es, m, fs[0], m1);
      RunOn(g, j, es + [fs[0]], m1, fs[1..], n);
      assert es + fs == es + [fs[0]] + fs[1..];
    }
  }

  // ----------------------------------------------------------------- reading

  /** No other thread holds a buffer. */
  ghost predicate Alone(c: BM.Cache) { forall h :: h in c.refs ==> h <= SECOND }

  ghost predicate RoomFor(c: BM.Cache, b: nat) { |c.pins| + |c.refs| < |c.bufs| || PinnedFor(c, b) }

  lemma GetRoom(c: BM.Cache, h: nat, b: nat)
    requires CacheOk(c) && h !in c.refs && b < |c.disk| && RoomFor(c, b)
    ensures Can(c, BM.Get(h, b))
  {
    CacheIs(c);
    if PinnedFor(c, b) {
      if BM.Cached(c.bufs, c.order, b, 0) < 0 { BM.NotCached(c, b); }
    } else {
      BM.RoomToGet(c, h, b);
    }
  }

  lemma StepFacts(c: BM.Cache, e: BM.Event)
    requires Can(c, e)
    ensures var c' := BM.Apply(c, e);
            && |c'.bufs| == |c.bufs| && c'.refs.Keys <= c.refs.Keys + {e.h}
            && (!e.Get? ==> c'.refs.Keys <= c.refs.Keys) && (!e.Pin? && !e.Unpin? ==> c'.pins == c.pins)
  {
  }

  /** The lock that bread waits for is free. */
  lemma LockFree(g: LM.Layout, j: Joint)
    requires Inv(g, j) && Alone(j.c) && j.todo != [] && j.todo[0].Bread? && j.todo[0].h in j.c.refs
    requires BufOf(j.c, j.todo[0].h).holder != Some(j.todo[0].h)
    ensures Can(j.c, BM.Lock(j.todo[0].h))
  {
    var h := j.todo[0].h;
    CacheIs(j.c);
    NextBread(g, j.s, j.done, j.hands, j.todo);
    assert Has(j.c, j.todo, h, Out) && Has(j.c, j.todo, 1 - h, j.hands[1 - h]);
    assert BM.LockInv(j.c);
  }

  /** How much of a bread is left. */
  ghost function Stage(c: BM.Cache, h: nat): (n: nat) {
    if h !in c.refs then 3 else if BufOf(c, h).holder != Some(h) then 2 else if !BufOf(c, h).valid then 1 else 0
  }

  lemma StageDrops(c: BM.Cache, h: nat, b: nat)
    requires CacheOk(c) && Reading(c, h, b).Some? && Can(c, Reading(c, h, b).value)
    ensures Stage(BM.Apply(c, Reading(c, h, b).value), h) < Stage(c, h)
    ensures h in BM.Apply(c, Reading(c, h, b).value).refs
  {
    CacheIs(c);
    if h !in c.refs {
      var c' := BM.Apply(c, BM.Get(h, b));
      var i := c'.refs[h];
      assert BM.LockInv(c);
    }
  }

  lemma ReadEnabled(g: LM.Layout, j: Joint)
    requires Inv(g, j) && Alone(j.c) && j.todo != [] && j.todo[0].Bread?
    requires j.todo[0].h !in j.c.refs ==> RoomFor(j.c, j.todo[0].b)
    ensures Enabled(g, j, Go)
  {
    NextBread(g, j.s, j.done, j.hands, j.todo);
    if j.todo[0].h !in j.c.refs {
      GetRoom(j.c, j.todo[0].h, j.todo[0].b);
    } else if BufOf(j.c, j.todo[0].h).holder != Some(j.todo[0].h) {
      LockFree(g, j);
    }
  }

  /** One step of it. */
  lemma ReadOn(g: LM.Layout, j: Joint)
    requires Inv(g, j) && Alone(j.c) && j.todo != [] && j.todo[0].Bread? && j.todo[0].h <= SECOND && Enabled(g, j, Go)
    ensures var j1, h := Apply(g, j, Go), j.todo[0].h;
            && Inv(g, j1) && Alone(j1.c) && j1.s == j.s && j1.done == j.done && |j1.c.bufs| == |j.c.bufs|
            && j1.c.pins == j.c.pins && j1.c.refs.Keys <= j.c.refs.Keys + {h}
            && (j1.todo == j.todo[1..] || (j1.todo == j.todo && h in j1.c.refs && Stage(j1.c, h) < Stage(j.c, h)))
  {
    StepSound(g, j, Go);
    var r := CacheStep(j, Go);
    if r.Some? {
      StageDrops(j.c, j.todo[0].h, j.todo[0].b);
      StepFacts(j.c, r.value);
    }
  }

  /** bread, from its beginning or wherever it is, to its end. */
  lemma {:induction false} ReadThrough(g: LM.Layout, j: Joint) returns (es: seq<Event>, j': Joint)
    requires Inv(g, j) && Alone(j.c) && j.todo != [] && j.todo[0].Bread?
    requires j.todo[0].h !in j.c.refs ==> RoomFor(j.c, j.todo[0].b)
    ensures Leads(g, j, es, j') && Own(es) && Inv(g, j') && Alone(j'.c)
    ensures j'.s == j.s && j'.todo == j.todo[1..] && j'.done == j.done
    ensures |j'.c.bufs| == |j.c.bufs| && j'.c.pins == j.c.pins && j'.c.refs.Keys <= j.c.refs.Keys + {j.todo[0].h}
    decreases Stage(j.c, j.todo[0].h)
  {
    var h := j.todo[0].h;
    assert h <= SECOND by { NextBread(g, j.s, j.done, j.hands, j.todo); }
    ReadEnabled(g, j);
    var j1 := Apply(g, j, Go);
    ReadOn(g, j);
    var es1: seq<Event> := [];
    j' := j1;
    if j1.todo == j.todo {
      es1, j' := ReadThrough(g, j1);
    }
    es := [Go] + es1;
    Prepend(g, j, Go, j1, es1, j');
    OwnMore(Go, es1);
  }

  // ------------------------------------------------------- the rest of a turn

  ghost predicate NoReads(todo: seq<Instr>) {
    forall k :: 0 <= k < |todo| ==> !todo[k].Bread?
  }

  /** What a program does to the log machine. */
  ghost function Effect(g: LM.Layout, s: LM.State, todo: seq<Instr>): (s': LM.State)
    decreases |todo|
  {
    if todo == [] then s
    else
      match todo[0]
      case Bwrite(_, e) => Effect(g, DoLog(g, s, Some(e)), todo[1..])
      case Look(_) => Effect(g, DoLog(g, s, Some(LM.ReadHead)), todo[1..])
      case _ => Effect(g, s, todo[1..])
  }

  lemma OtherOn(g: LM.Layout, j: Joint)
    requires Inv(g, j) && Alone(j.c) && j.todo != [] && !j.todo[0].Bread?
    ensures Enabled(g, j, Go)
    ensures var j1 := Apply(g, j, Go);
            && Inv(g, j1) && Alone(j1.c) && |j1.c.bufs| == |j.c.bufs| && j1.todo == j.todo[1..]
            && Effect(g, j1.s, j1.todo) == Effect(g, j.s, j.todo)
  {
    StepSound(g, j, Go);
    var r := CacheStep(j, Go);
    if r.Some? { StepFacts(j.c, r.value); }
  }

  lemma {:induction false} RunRest(g: LM.Layout, j: Joint) returns (es: seq<Event>, j': Joint)
    requires Inv(g, j) && Alone(j.c) && NoReads(j.todo)
    ensures Leads(g, j, es, j') && Own(es) && Inv(g, j') && Alone(j'.c)
    ensures j'.todo == [] && j'.s == Effect(g, j.s, j.todo) && |j'.c.bufs| == |j.c.bufs|
    decreases |j.todo|
  {
    if j.todo == [] {
      es, j' := [], j;
    } else {
      assert !j.todo[0].Bread?;
      var j1 := Apply(g, j, Go);
      OtherOn(g, j);
      es, j' := RunRest(g, j1);
      Prepend(g, j, Go, j1, es, j');
      OwnMore(Go, es);
      es := [Go] + es;
    }
  }

  // ------------------------------------------------------------------- turns

  /** Nobody holds a buffer, the log's thread between its turns included. */
  ghost predicate Quiet(j: Joint) { j.todo == [] && j.c.refs == map[] }

  /** How many buffers the log has pinned between turns. */
  function Pinned(s: LM.State): (n: int) {
    match s.phase
    case Running | WriteLog(_) => |s.lh|
    case Install(t) => |s.lh| - t
    case _ => 0
  }

  lemma PinnedIs(g: LM.Layout, j: Joint)
    requires Inv(g, j) && j.todo == []
    ensures |j.c.pins| == Pinned(j.s)
  {
    PlanEnds(g, j.s, j.done, j.hands);
    PinsNumber(j.c, j.s.lh, j.done);
  }

  /** The step of the log machine that the next turn is. */
  function Next(s: LM.State): (e: LM.Event) {
    match s.phase
    case WriteLog(t) => if t < |s.lh| then LM.CopyBlock else LM.WriteHead
    case Install(t) => if t < |s.lh| then LM.InstallBlock else LM.ClearHead
    case Recovering(t) => if t < |s.lh| then LM.RecoverBlock else LM.RecoverClear
    case Boot => LM.ReadHead
    case _ => LM.Return
  }

  lemma {:induction false} EffectNone(g: LM.Layout, s: LM.State, p: seq<Instr>, rest: seq<Instr>)
    requires forall k :: 0 <= k < |p| ==> !p[k].Bwrite? && !p[k].Look?
    ensures Effect(g, s, p + rest) == Effect(g, s, rest)
    decreases |p|
  {
    if p == [] {
      assert p + rest == rest;
    } else {
      assert (p + rest)[1..] == p[1..] + rest;
      EffectNone(g, s, p[1..], rest);
    }
  }

  lemma EffectOne(g: LM.Layout, s: LM.State, p: seq<Instr>, i: Instr, q: seq<Instr>, e: LM.Event)
    requires forall k :: 0 <= k < |p| ==> !p[k].Bwrite? && !p[k].Look?
    requires forall k :: 0 <= k < |q| ==> !q[k].Bwrite? && !q[k].Look?
    requires (i.Bwrite? && i.e == e) || (i.Look? && e == LM.ReadHead)
    ensures Effect(g, s, p + ([i] + q)) == DoLog(g, s, Some(e))
  {
    EffectNone(g, s, p, [i] + q);
    assert ([i] + q)[1..] == q;
    EffectNone(g, DoLog(g, s, Some(e)), q, []);
    assert q + [] == q;
  }

  lemma ProgramEffect(g: LM.Layout, s: LM.State)
    requires Program(g, s) != []
    ensures Effect(g, s, Program(g, s)) == DoLog(g, s, Some(Next(s)))
  {
    var p := Program(g, s);
    var n := if p[1].Look? then 1 else if p[1].Header? then 2 else 3;
    assert p == p[..n] + ([p[n]] + p[n + 1..]);
    EffectOne(g, s, p[..n], p[n], p[n + 1..], Next(s));
  }

  lemma TurnOn(g: LM.Layout, j: Joint) returns (j1: Joint)
    requires Inv(g, j) && Quiet(j) && Program(g, j.s) != []
    ensures Moves(g, j, Turn, j1) && Inv(g, j1)
    ensures j1 == j.(todo := Program(g, j.s))
    ensures LM.Shape(g, j.s) && LM.Enabled(g, j.s, Next(j.s))
  {
    StepSound(g, j, Turn);
    j1 := Apply(g, j, Turn);
    LogIs(g, j.s);
  }

  /** When the log block is read, there is room for its home block: it is pinned, or the log has pinned nothing. */
  lemma SecondRoom(g: LM.Layout, j: Joint, t: nat)
    requires Inv(g, j) && t < |j.s.lh| && j.c.refs.Keys <= {FIRST} && |j.c.bufs| > 1
    requires j.s.phase == LM.Recovering(t) || (j.done <= t
                                               && (j.s.phase == LM.WriteLog(t) || j.s.phase == LM.Install(t)))
    ensures RoomFor(j.c, j.s.lh[t])
  {
    if j.s.phase.Recovering? {
      PinsNumber(j.c, j.s.lh, j.done);
      Keys(j.c.refs, FIRST);
    } else {
      assert PinnedFor(j.c, j.s.lh[t]);
    }
  }

  lemma Keys(m: map<nat, nat>, h: nat)
    requires m.Keys <= {h}
    ensures |m| <= 1
  {
    assert |m| == |m.Keys|;
    if h in m.Keys {
      assert m.Keys == {h};
    } else {
      assert m.Keys == {};
    }
  }

  /** A program reads a log block and its home block, or the header; what follows is all its effect. */
  lemma ProgramReads(g: LM.Layout, s: LM.State, p: seq<Instr>)
    requires p == Program(g, s) != []
    ensures |p| > 2 && p[0].Bread? && p[0].h == FIRST
    ensures p[1].Bread? ==> Copies(s) && p[1].h == SECOND && p[1].b == s.lh[s.phase.tail] && NoReads(p[2..])
    ensures !p[1].Bread? ==> NoReads(p[1..])
    ensures Effect(g, s, p) == Effect(g, s, p[1..]) && (p[1].Bread? ==> Effect(g, s, p) == Effect(g, s, p[1..][1..]))
  {
  }

  /** The turn moves a block between the log and its home. */
  predicate Copies(s: LM.State) {
    (s.phase.WriteLog? || s.phase.Install? || s.phase.Recovering?) && s.phase.tail < |s.lh|
  }

  /** The one or two bread with which a turn begins. */
  lemma ReadAll(g: LM.Layout, j: Joint, p: seq<Instr>) returns (es: seq<Event>, j': Joint)
    requires Inv(g, j) && j.c.refs == map[] && j.todo == p != [] && Settled(j.s, j.done)
    requires |j.c.bufs| > 1 && |j.c.pins| < |j.c.bufs|
    requires |p| > 2 && p[0].Bread? && p[0].h == FIRST
    requires p[1].Bread? ==> Copies(j.s) && p[1].h == SECOND && p[1].b == j.s.lh[j.s.phase.tail] && NoReads(p[2..])
    requires !p[1].Bread? ==> NoReads(p[1..])
    ensures Leads(g, j, es, j') && Own(es) && Inv(g, j') && Alone(j'.c) && j'.s == j.s && |j'.c.bufs| == |j.c.bufs|
    ensures NoReads(j'.todo) && j'.todo == if p[1].Bread? then p[1..][1..] else p[1..]
  {
    es, j' := ReadThrough(g, j);
    if p[1].Bread? {
      var es1, j1 := es, j';
      SecondRoom(g, j1, j.s.phase.tail);
      es, j' := ReadThrough(g, j1);
      Append(g, j, es1, j1, es, j');
      OwnBoth(es1, es);
      es := es1 + es;
      assert p[1..][1..] == p[2..];
    }
  }

  lemma OwnBoth(es: seq<Event>, fs: seq<Event>)
    requires Own(es) && Own(fs)
    ensures Own(es + fs)
  {
  }

  /** A turn, from beginning to end, is a step of the log machine. */
  lemma OneTurn(g: LM.Layout, j: Joint) returns (es: seq<Event>, j': Joint)
    requires Inv(g, j) && Quiet(j) && Program(g, j.s) != [] && 1 < |j.c.bufs| && Pinned(j.s) < |j.c.bufs|
    ensures Leads(g, j, es, j') && Own(es) && Inv(g, j') && Quiet(j') && |j'.c.bufs| == |j.c.bufs|
    ensures LM.Shape(g, j.s) && LM.Enabled(g, j.s, Next(j.s)) && j'.s == LM.Apply(g, j.s, Next(j.s))
  {
    var j1 := TurnOn(g, j);
    PinnedIs(g, j);
    PlanEnds(g, j.s, j.done, j.hands);
    var p := Program(g, j.s);
    ProgramReads(g, j.s, p);
    ProgramEffect(g, j.s);
    var es1, j2 := ReadAll(g, j1, p);
    var es2, j3 := RunRest(g, j2);
    Append(g, j1, es1, j2, es2, j3);
    Prepend(g, j, Turn, j1, es1 + es2, j3);
    OwnBoth(es1, es2);
    OwnMore(Turn, es1 + es2);
    es, j' := [Turn] + (es1 + es2), j3;
    Released(g, j3);
  }

  /** Between turns the log's thread holds nothing. */
  lemma Released(g: LM.Layout, j: Joint)
    requires Inv(g, j) && j.todo == [] && Alone(j.c)
    ensures j.c.refs == map[]
  {
    PlanEnds(g, j.s, j.done, j.hands);
    assert Has(j.c, j.todo, FIRST, Out) && Has(j.c, j.todo, SECOND, Out);
    assert j.c.refs.Keys == {};
  }

  // ----------------------------------------------------------- whole commits

  /** How many turns there are to come, at most. */
  function Left(s: LM.State): (n: int) {
    match s.phase
    case Running => 0
    case Finish => 1
    case Install(t) => 2 + |s.lh| - t
    case WriteLog(t) => 3 + |s.lh| + |s.lh| - t
    case Recovering(t) => 1 + |s.lh| - t
    case Boot => 2 + LOGBLOCKS
  }

  /** In a commit, rather than in recovery. */
  predicate Committing(s: LM.State) { s.phase.WriteLog? || s.phase.Install? || s.phase.Finish? }

  /** The log machine goes on towards the end of what it is doing, keeping what it has. */
  lemma LeftDrops(g: LM.Layout, s: LM.State, s': LM.State)
    requires LM.Inv(g, s) && !s.phase.Running? && LM.Enabled(g, s, Next(s)) && s' == LM.Apply(g, s, Next(s))
    ensures 0 <= Left(s') < Left(s) && Pinned(s') <= Pinned(s) && s'.groups == s.groups && s'.begun == s.begun
    ensures if Committing(s) then Committing(s') || (s'.phase.Running? && s'.returned == |s'.groups|)
            else !Committing(s') && s'.returned == s.returned
    ensures s'.phase.Running? ==> s'.lh == [] && s'.active == []
  {
  }

  /** The last step of a commit. */
  lemma ReturnOn(g: LM.Layout, j: Joint) returns (j': Joint)
    requires Inv(g, j) && Quiet(j) && j.s.phase.Finish?
    ensures Moves(g, j, Return, j') && Inv(g, j') && Quiet(j') && j'.c == j.c
    ensures LM.Shape(g, j.s) && LM.Enabled(g, j.s, LM.Return) && j'.s == LM.Apply(g, j.s, LM.Return)
  {
    StepSound(g, j, Return);
    j' := Apply(g, j, Return);
  }

  lemma OneStep(g: LM.Layout, j: Joint) returns (es: seq<Event>, j': Joint)
    requires Inv(g, j) && Quiet(j) && !j.s.phase.Running? && 1 < |j.c.bufs| && Pinned(j.s) < |j.c.bufs|
    ensures Leads(g, j, es, j') && Own(es) && Inv(g, j') && Quiet(j') && |j'.c.bufs| == |j.c.bufs|
    ensures LM.Inv(g, j.s) && LM.Enabled(g, j.s, Next(j.s)) && j'.s == LM.Apply(g, j.s, Next(j.s))
  {
    if j.s.phase.Finish? {
      j' := ReturnOn(g, j);
      es := [Return];
      Prepend(g, j, Return, j', [], j');
      assert [Return] + [] == es;
    } else {
      es, j' := OneTurn(g, j);
    }
    LogIs(g, j.s);
  }

  /**
   * A commit or a recovery gets done by the log's thread alone, when nobody else holds a buffer and the log has not
   * pinned them all.
   */
  lemma {:induction false} Completes(g: LM.Layout, j: Joint) returns (es: seq<Event>, j': Joint)
    requires Inv(g, j) && Quiet(j) && !j.s.phase.Running? && 1 < |j.c.bufs| && Pinned(j.s) < |j.c.bufs|
    ensures Leads(g, j, es, j') && Own(es) && Inv(g, j') && Quiet(j') && |j'.c.bufs| == |j.c.bufs|
    ensures j'.s.phase.Running? && j'.s.lh == [] && j'.s.active == [] && j'.s.groups == j.s.groups
    ensures j'.s.begun == j.s.begun
    ensures j'.s.returned == if Committing(j.s) then |j.s.groups| else j.s.returned
    decreases Left(j.s)
  {
    es, j' := OneStep(g, j);
    LeftDrops(g, j.s, j'.s);
    if !j'.s.phase.Running? {
      var es1, j1 := es, j';
      es, j' := Completes(g, j1);
      Append(g, j, es1, j1, es, j');
      OwnBoth(es1, es);
      es := es1 + es;
    }
  }

  lemma MovesIs(g: LM.Layout, j: Joint, e: Event, j': Joint)
    requires Moves(g, j, e, j')
    ensures Enabled(g, j, e) && j' == Apply(g, j, e)
  {
    assert Planned(0);
  }

  /** write_log has copied `t` blocks, every buffer is pinned, and the log's thread is before its next bget. */
  ghost predicate Starved(g: LM.Layout, j: Joint, t: nat) {
    && Inv(g, j) && j.s.phase == LM.WriteLog(t) && t < |j.s.lh| && |j.c.bufs| <= |j.s.lh| && FIRST !in j.c.refs
    && (j.todo != [] ==> j.todo[0] == Bread(FIRST, g.start + 1 + t))
  }

  /** Nothing but a crash helps, whoever does it. */
  lemma StaysStarved(g: LM.Layout, j: Joint, t: nat, e: Event)
    requires Starved(g, j, t) && Enabled(g, j, e) && !e.Crash?
    ensures Starved(g, Apply(g, j, e), t) && Apply(g, j, e).s == j.s
  {
    StepSound(g, j, e);
    match e
    case Cache(x) => StepFacts(j.c, x);
    case Go => NoBuffer(g, j, t);
    case _ =>
  }

  lemma NoBuffer(g: LM.Layout, j: Joint, t: nat)
    requires Starved(g, j, t) && j.todo != []
    ensures !Enabled(g, j, Go)
  {
    var a := g.start + 1 + t;
    assert LM.HeaderOk(g, j.s.lh) && g.InLog(a) by { LogIs(g, j.s); }
    PinsNumber(j.c, j.s.lh, j.done);
    PinsAreHome(g, j.c, j.s.lh, j.done);
    CacheIs(j.c);
    AllPinned(j.c, a, FIRST);
  }

  ghost predicate NoCrash(es: seq<Event>) { forall k :: 0 <= k < |es| ==> !es[k].Crash? }

  lemma {:induction false} Stops(g: LM.Layout, j: Joint, t: nat, es: seq<Event>, j': Joint)
    requires Starved(g, j, t) && NoCrash(es) && Leads(g, j, es, j')
    ensures j'.s == j.s
    decreases |es|
  {
    if es != [] {
      var j1 := First(g, j, es, j');
      MovesIs(g, j, es[0], j1);
      StaysStarved(g, j, t, es[0]);
      Stops(g, j1, t, es[1..], j');
    }
  }

  /** end_op has returned: every system call that has ended is on disk, in place, and acknowledged. */
  ghost predicate Committed(g: LM.Layout, gs: seq<seq<LM.Write>>, s: LM.State) {
    && LM.Shape(g, s) && s.phase.Running? && s.groups == gs && s.returned == |gs|
       && LM.SameHome(g, s.disk, LM.All(g, s))
  }

  /** Some way of going on, without a crash, brings the commit to its end. */
  ghost predicate CanCommit(g: LM.Layout, j: Joint) {
    exists es, j' :: NoCrash(es) && Leads(g, j, es, j') && Committed(g, j.s.groups, j'.s)
  }

  lemma CommitGoes(g: LM.Layout, j: Joint) returns (es: seq<Event>, j': Joint)
    requires Inv(g, j) && Quiet(j) && j.s.phase.WriteLog? && 1 < |j.c.bufs| && |j.s.lh| < |j.c.bufs|
    ensures Own(es) && Leads(g, j, es, j') && Committed(g, j.s.groups, j'.s) && CanCommit(g, j)
  {
    es, j' := Completes(g, j);
    assert Committed(g, j.s.groups, j'.s) by { LogIs(g, j'.s); }
    assert NoCrash(es);
  }

  lemma CommitStops(g: LM.Layout, j: Joint)
    requires Inv(g, j) && j.todo == [] && j.s.phase.WriteLog? && j.s.phase.tail < |j.s.lh| && |j.c.bufs| <= |j.s.lh|
    ensures !CanCommit(g, j)
  {
    PlanEnds(g, j.s, j.done, j.hands);
    assert Has(j.c, j.todo, FIRST, Out);
    assert Starved(g, j, j.s.phase.tail);
    forall es, j' | NoCrash(es) && Leads(g, j, es, j') ensures !j'.s.phase.Running? {
      Stops(g, j, j.s.phase.tail, es, j');
    }
  }

  /**
   * So a commit that finds nobody else holding a buffer gets done exactly if the log has fewer entries than the cache
   * has buffers. begin_op lets in LOGBLOCKS entries, which is NBUF.
   */
  lemma CommitCompletes(g: LM.Layout, d: Disk, j: Joint, es: seq<Event>, now: Joint)
    requires Initial(g, d, j) && Exec(g, j, es) == Some(now) && Quiet(now) && 1 < |now.c.bufs|
    requires now.s.phase.WriteLog? && now.s.phase.tail < |now.s.lh|
    ensures CanCommit(g, now) <==> |now.s.lh| < |now.c.bufs|
  {
    RunInv(g, d, j, es);
    if |now.s.lh| < |now.c.bufs| {
      var _, _ := CommitGoes(g, now);
    } else {
      CommitStops(g, now);
    }
  }
}
