/**
 * The log over the buffer cache (kernel/log.c on kernel/bio.c), with all their users at once.
 *
 * System calls and readers take steps of the cache in any interleaving, also while a commit is under way; the
 * thread that commits or recovers goes through the bread, memmove, bwrite, bunpin and brelse of log.c one at a
 * time, waiting like anyone else for buffers that others hold. A crash may come anywhere.
 */
module LogCache {
  import opened Common
  import opened DiskTypes
  import BM = BioModel
  import LM = LogModel
  import LR = LogRuns

  // --------------------------------------------------------------- machine

  /** The handles of the two breads that the log's own thread makes at a time; other threads use higher ones. */
  const FIRST: nat := 0
  const SECOND: nat := 1

  /** What the log's thread does, a call or an assignment of log.c at a time. */
  datatype Instr =
    | Bread(h: nat, b: nat)
    | Move(dst: nat, src: nat)        // memmove(dst->data, src->data, BSIZE)
    | Header(h: nat, lh: seq<Word>)   // store n and the block numbers into the header block
    | Bwrite(h: nat, e: LM.Event)     // the step of the log machine that this write is
    | Look(h: nat)                    // read_head takes the header
    | Bunpin(h: nat)
    | Unlock(h: nat)                  // brelse
    | Put(h: nat)

  /** What one of its handles is for: nothing, a buffer being released, or block `b` locked, holding `x`. */
  datatype Hold = Out | Ref(b: nat) | Got(b: nat, x: Block)

  datatype Joint = Joint(
    c: BM.Cache,
    s: LM.State,
    todo: seq<Instr>,           // what is left of the turn that the log's thread is in
    raw: map<nat, nat>,         // handles that have stored and not yet called log_write, with their system call
    // history
    hands: seq<Hold>,
    done: nat,                  // how many entries of the log are not pinned any more
    log: seq<LM.Event>)         // the steps of the log machine so far

  datatype Event =
    | Cache(e: BM.Event)                  // bread and brelse by any thread
    | Store(h: nat, x: Block, i: nat)     // system call `i` changes a buffer it holds
    | LogWrite(h: nat, i: nat)
    | BeginOp(id: nat) | EndOp(i: nat) | Return
    | Turn                                // the log's thread begins its next turn
    | Go                                  // and takes its next step
    | Crash(c: BM.Cache)

  function Copying(g: LM.Layout, t: nat, home: nat): (p: seq<Instr>) {
    [Bread(FIRST, g.start + 1 + t), Bread(SECOND, home), Move(FIRST, SECOND), Bwrite(FIRST, LM.CopyBlock),
     Unlock(SECOND), Put(SECOND), Unlock(FIRST), Put(FIRST)]
  }

  function Heading(g: LM.Layout, lh: seq<Word>, e: LM.Event): (p: seq<Instr>) {
    [Bread(FIRST, g.start), Header(FIRST, lh), Bwrite(FIRST, e), Unlock(FIRST), Put(FIRST)]
  }

  function Installing(g: LM.Layout, t: nat, home: nat, recovering: bool): (p: seq<Instr>) {
    [Bread(FIRST, g.start + 1 + t), Bread(SECOND, home), Move(SECOND, FIRST),
     Bwrite(SECOND, if recovering then LM.RecoverBlock else LM.InstallBlock)]
    + (if recovering then [] else [Bunpin(SECOND)])
    + [Unlock(FIRST), Put(FIRST), Unlock(SECOND), Put(SECOND)]
  }

  /** The next turn of write_log, write_head, install_trans or read_head. */
  function Program(g: LM.Layout, s: LM.State): (p: seq<Instr>) {
    match s.phase
    case WriteLog(t) => if t < |s.lh| then Copying(g, t, s.lh[t]) else Heading(g, s.lh, LM.WriteHead)
    case Install(t) => if t < |s.lh| then Installing(g, t, s.lh[t], false) else Heading(g, [], LM.ClearHead)
    case Boot => [Bread(FIRST, g.start), Look(FIRST), Unlock(FIRST), Put(FIRST)]
    case Recovering(t) => if t < |s.lh| then Installing(g, t, s.lh[t], true) else Heading(g, [], LM.RecoverClear)
    case _ => []
  }

  function Zero(): (x: Block) { seq(BWORDS, _ => 0) }

  /** The buffer of handle `h`, and what is in it. */
  function BufOf(c: BM.Cache, h: nat): (b: BM.Buf) {
    if h in c.refs && c.refs[h] < |c.bufs| then c.bufs[c.refs[h]] else BM.Buf(0, 0, false, 0, Zero(), None)
  }

  /** bread's next step: bget, acquiresleep, reading the disk; None when it is done. */
  function Reading(c: BM.Cache, h: nat, b: nat): (e: Option<BM.Event>) {
    if h !in c.refs then Some(BM.Get(h, b))
    else if BufOf(c, h).holder != Some(h) then Some(BM.Lock(h))
    else if !BufOf(c, h).valid then Some(BM.Fill(h))
    else None
  }

  /** The step of the cache that an event is. */
  function CacheStep(j: Joint, e: Event): (r: Option<BM.Event>) {
    match e
    case Cache(x) => Some(x)
    case Store(h, x, _) => Some(BM.Modify(h, x))
    case LogWrite(h, _) => Some(BM.Pin(h))
    case Go =>
      if j.todo == [] then None
      else
        (match j.todo[0]
         case Bread(h, b) => Reading(j.c, h, b)
         case Move(dst, src) => Some(BM.Modify(dst, BufOf(j.c, src).data))
         case Header(h, lh) =>
           if |lh| <= LOGBLOCKS then Some(BM.Modify(h, LM.WithHeader(BufOf(j.c, h).data, lh))) else None
         case Bwrite(h, _) => Some(BM.Write(h))
         case Look(_) => None
         case Bunpin(h) => Some(BM.Unpin(h))
         case Unlock(h) => Some(BM.Unlock(h))
         case Put(h) => Some(BM.Put(h)))
    case _ => None
  }

  /** The step of the log that an event is. */
  function LogStep(j: Joint, e: Event): (r: Option<LM.Event>) {
    match e
    case LogWrite(h, i) =>
      var b := BufOf(j.c, h);
      if b.blockno < 0x1_0000_0000 then Some(LM.LogWrite(i, b.blockno, b.data)) else None
    case BeginOp(id) => Some(LM.BeginOp(id))
    case EndOp(i) => Some(LM.EndOp(i))
    case Return => Some(LM.Return)
    case Go =>
      if j.todo == [] then None
      else
        (match j.todo[0]
         case Bwrite(_, x) => Some(x)
         case Look(_) => Some(LM.ReadHead)
         case _ => None)
    case Crash(_) => Some(LM.Crash)
    case _ => None
  }

  /** Handle `h` has the buffer locked, with the block's contents in it. */
  predicate Ready(c: BM.Cache, h: nat) {
    h in c.refs && BufOf(c, h).holder == Some(h) && BufOf(c, h).dev == BM.ROOTDEV && BufOf(c, h).valid
  }

  ghost predicate Can(c: BM.Cache, e: BM.Event) { BM.Shape(c) && BM.Enabled(c, e) }

  /**
   * When each event may happen. The conditions are those of the code, and the rules of the typical use: store only
   * inside a system call, call log_write before brelse, and release before end_op. That the cache's own rules are then
   * kept, for instance that brelse finds the data on disk or pinned, is what StepSound proves.
   */
  ghost predicate Enabled(g: LM.Layout, j: Joint, e: Event) {
    match e
    case Cache(x) =>
      && x.h > SECOND
      && (match x
          case Get(_, _) | Lock(_) | Fill(_) | Put(_) => Can(j.c, x)
          case Unlock(h) => h in j.c.refs && BufOf(j.c, h).holder == Some(h) && h !in j.raw
          case _ => false)
    case Store(h, x, i) => MayStore(g, j, h, i)
    case LogWrite(h, i) => MayStore(g, j, h, i) && |j.s.lh| < LOGBLOCKS
    case BeginOp(id) => j.todo == [] && LM.Enabled(g, j.s, LM.BeginOp(id))
    case EndOp(i) => LM.Enabled(g, j.s, LM.EndOp(i)) && j.s.active[i].id !in j.raw.Values
    case Return => j.todo == [] && j.s.phase.Finish?
    case Turn => j.todo == [] && Program(g, j.s) != []
    case Go =>
      && j.todo != []
      && (j.todo[0].Bread? ==>
            // bget wants a buffer, acquiresleep wants the lock
            var r := Reading(j.c, j.todo[0].h, j.todo[0].b);
            r.Some? && (r.value.Get? || r.value.Lock?) ==> Can(j.c, r.value))
    case Crash(c) => BM.Initial(c) && c.disk == j.c.disk
  }

  /** Inside system call `i`, which holds a home block. */
  predicate MayStore(g: LM.Layout, j: Joint, h: nat, i: nat) {
    h > SECOND && j.s.phase.Running? && i < |j.s.active| && Ready(j.c, h) && g.Home(BufOf(j.c, h).blockno)
  }

  ghost function DoCache(c: BM.Cache, e: Option<BM.Event>): (c': BM.Cache) {
    if e.Some? && Can(c, e.value) then BM.Apply(c, e.value) else c
  }

  ghost function DoLog(g: LM.Layout, s: LM.State, e: Option<LM.Event>): (s': LM.State) {
    if e.Some? && LM.Shape(g, s) && LM.Enabled(g, s, e.value) then LM.Apply(g, s, e.value) else s
  }

  /** The hands after an instruction that is over. */
  function Hands(s: LM.State, hands: seq<Hold>, i: Instr): (r: seq<Hold>)
    ensures |r| == |hands|
  {
    match i
    case Bread(h, b) => if h < |hands| && b < |s.view| then hands[h := Got(b, s.view[b])] else hands
    case Move(d, x) =>
      if d < |hands| && x < |hands| && hands[d].Got? && hands[x].Got? then hands[d := Got(hands[d].b, hands[x].x)]
      else hands
    case Header(h, lh) =>
      if h < |hands| && hands[h].Got? && |lh| <= LOGBLOCKS
      then hands[h := Got(hands[h].b, LM.WithHeader(hands[h].x, lh))] else hands
    case Unlock(h) => if h < |hands| && hands[h].Got? then hands[h := Ref(hands[h].b)] else hands
    case Put(h) => if h < |hands| then hands[h := Out] else hands
    case _ => hands
  }

  /** bunpin counts; read_head finds a log of which nothing is pinned; the end of commit or recovery starts anew. */
  function Done(s': LM.State, done: nat, i: Instr): (n: nat) {
    if i.Bunpin? then done + 1 else if i.Look? then |s'.lh| else if i.Bwrite? && s'.lh == [] then 0 else done
  }

  ghost function Apply(g: LM.Layout, j: Joint, e: Event): (j': Joint) {
    var r := LogStep(j, e);
    var c', s' := DoCache(j.c, CacheStep(j, e)), DoLog(g, j.s, r);
    var log' := if r.Some? then j.log + [r.value] else j.log;
    match e
    case Store(h, _, i) =>
      j.(c := c', raw := if i < |j.s.active| then j.raw[h := j.s.active[i].id] else j.raw)
    case LogWrite(h, _) => j.(c := c', s := s', raw := j.raw - {h}, log := log')
    case Turn => j.(todo := Program(g, j.s))
    case Go =>
      if j.todo == [] then j
      else if j.todo[0].Bread? && CacheStep(j, e).Some? then j.(c := c')
      else
        j.(c := c', s := s', todo := j.todo[1..], hands := Hands(j.s, j.hands, j.todo[0]),
           done := Done(s', j.done, j.todo[0]), log := log')
    case Crash(c) => Joint(c, s', [], map[], [Out, Out], 0, log')
    case _ => j.(c := c', s := s', log := log')
  }

  /** Power on: an empty cache, and whatever log the disk has. */
  ghost predicate Initial(g: LM.Layout, d: Disk, j: Joint) {
    && LM.DiskOk(g, d) && BM.Initial(j.c) && j.c.disk == d
    && j == Joint(j.c, LM.Init(g, d), [], map[], [Out, Out], 0, [])
  }
}
