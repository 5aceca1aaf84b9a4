/**
 * The write-ahead log of kernel/log.c as a state machine.
 *
 * Each disk write is one step, a crash may come between any two steps
 * (also inside recovery), and any number of system calls run at once.
 * The machine carries the history it is judged by: `groups`, the writes of
 * each commit group in order, and how many of them are `durable`.
 */
module LogModel {
  import opened DiskTypes

  /** Disk size in blocks and `log.start`, the block number of the log header. */
  datatype Layout = Layout(size: nat, start: nat) {
    ghost predicate Valid() {
      start + 1 + LOGBLOCKS <= size <= 0x1_0000_0000
    }

    /** The header block and the log blocks that follow it. */
    predicate InLog(b: int) {
      start <= b < start + 1 + LOGBLOCKS
    }

    predicate Home(b: int) {
      0 <= b < size && !InLog(b)
    }
  }

  // ---------------------------------------------------------------- header

  /** Block numbers named by an on-disk header (read_head). */
  function HeaderOf(b: Block): (lh: seq<Word>)
    requires b[0] <= LOGBLOCKS
  {
    b[1..1 + b[0]]
  }

  /** write_head overwrites `n` and the first `n` entries; the rest of the block stays. */
  function WithHeader(b: Block, lh: seq<Word>): (r: Block)
    requires |lh| <= LOGBLOCKS
  {
    [|lh|] + lh + b[1 + |lh|..]
  }

  lemma HeaderRoundTrip(b: Block, lh: seq<Word>)
    requires |lh| <= LOGBLOCKS
    ensures WithHeader(b, lh)[0] <= LOGBLOCKS
    ensures HeaderOf(WithHeader(b, lh)) == lh
  {
  }

  ghost predicate HeaderOk(g: Layout, lh: seq<Word>) {
    |lh| <= LOGBLOCKS && forall i :: 0 <= i < |lh| ==> g.Home(lh[i])
  }

  ghost predicate DiskOk(g: Layout, d: Disk) {
    g.Valid() && |d| == g.size && d[g.start][0] <= LOGBLOCKS && HeaderOk(g, HeaderOf(d[g.start]))
  }

  // -------------------------------------------------------------- recovery

  /** install_trans from entry `t` on: copy each log block to its home. */
  function InstallFrom(g: Layout, d: Disk, lh: seq<Word>, t: nat): (r: Disk)
    requires g.Valid() && |d| == g.size && HeaderOk(g, lh) && t <= |lh|
    ensures |r| == |d|
    ensures forall b :: g.InLog(b) ==> r[b] == d[b]
    decreases |lh| - t
  {
    if t == |lh| then d
    else InstallFrom(g, d[lh[t] := d[g.start + 1 + t]], lh, t + 1)
  }

  /** recover_from_log, run to its end without a crash. */
  function Recover(g: Layout, d: Disk): (r: Disk)
    requires DiskOk(g, d)
    ensures |r| == |d|
  {
    var d1 := InstallFrom(g, d, HeaderOf(d[g.start]), 0);
    d1[g.start := WithHeader(d1[g.start], [])]
  }

  ghost predicate SameHome(g: Layout, d: Disk, e: Disk) {
    |d| == g.size == |e| && forall b :: g.Home(b) ==> d[b] == e[b]
  }

  /** Block `b` is the home of a log block at or after position `t`. */
  ghost predicate Named(lh: seq<Word>, t: int, b: int) {
    exists i :: 0 <= t <= i < |lh| && lh[i] == b
  }

  /** What recovery leaves depends only on the log area and on home blocks the header does not name. */
  lemma {:induction false} InstallAgree(g: Layout, d: Disk, e: Disk, lh: seq<Word>, t: nat)
    requires g.Valid() && |d| == g.size == |e| && HeaderOk(g, lh) && t <= |lh|
    requires forall b :: g.InLog(b) && b != g.start ==> d[b] == e[b]
    requires forall b :: g.Home(b) && !Named(lh, t, b) ==> d[b] == e[b]
    ensures SameHome(g, InstallFrom(g, d, lh, t), InstallFrom(g, e, lh, t))
    decreases |lh| - t
  {
    if t < |lh| {
      var x := d[g.start + 1 + t];
      forall b | g.Home(b) && !Named(lh, t + 1, b) ensures d[lh[t] := x][b] == e[lh[t] := x][b] {
        assert Named(lh, t, b) ==> b == lh[t];
      }
      InstallAgree(g, d[lh[t] := x], e[lh[t] := x], lh, t + 1);
    }
  }

  /** If every log block holds the wanted contents of its home block, installing yields the wanted disk. */
  lemma {:induction false} InstallReaches(g: Layout, d: Disk, want: Disk, lh: seq<Word>, t: nat)
    requires g.Valid() && |d| == g.size == |want| && HeaderOk(g, lh) && t <= |lh|
    requires forall i :: t <= i < |lh| ==> d[g.start + 1 + i] == want[lh[i]]
    requires forall b :: g.Home(b) && !Named(lh, t, b) ==> d[b] == want[b]
    ensures SameHome(g, InstallFrom(g, d, lh, t), want)
    decreases |lh| - t
  {
    if t < |lh| {
      var d' := d[lh[t] := d[g.start + 1 + t]];
      forall b | g.Home(b) && !Named(lh, t + 1, b) ensures d'[b] == want[b] {
        assert Named(lh, t, b) ==> b == lh[t];
      }
      forall i | t + 1 <= i < |lh| ensures d'[g.start + 1 + i] == want[lh[i]] {
        assert g.InLog(g.start + 1 + i) && g.Home(lh[t]);
      }
      InstallReaches(g, d', want, lh, t + 1);
    }
  }

  /** install_trans as far as entry `t`: what a crash in the middle of recovery leaves. */
  function InstallTo(g: Layout, d: Disk, lh: seq<Word>, t: nat): (r: Disk)
    requires g.Valid() && |d| == g.size && HeaderOk(g, lh) && t <= |lh|
    ensures |r| == |d|
    ensures forall b :: g.InLog(b) ==> r[b] == d[b]
    ensures forall b :: g.Home(b) && !Named(lh, 0, b) ==> r[b] == d[b]
  {
    if t == 0 then d else InstallTo(g, d, lh, t - 1)[lh[t - 1] := d[g.start + t]]
  }

  /** Recovery is idempotent: after a crash at any point of it, or at its end, recovering again gives the same. */
  lemma RecoverIdempotent(g: Layout, d: Disk, t: nat)
    requires DiskOk(g, d) && t <= |HeaderOf(d[g.start])|
    ensures var e := InstallTo(g, d, HeaderOf(d[g.start]), t); DiskOk(g, e) && Recover(g, e) == Recover(g, d)
    ensures DiskOk(g, Recover(g, d)) && Recover(g, Recover(g, d)) == Recover(g, d)
  {
    var lh := HeaderOf(d[g.start]);
    var e := InstallTo(g, d, lh, t);
    InstallAgree(g, d, e, lh, 0);
    var d1, e1 := InstallFrom(g, d, lh, 0), InstallFrom(g, e, lh, 0);
    assert d1 == e1 by {
      forall b | 0 <= b < |d1| ensures d1[b] == e1[b] { assert g.Home(b) || g.InLog(b); }
    }
  }

  // --------------------------------------------------------------- history

  /** One log_write by system call `op`. */
  datatype Write = Write(op: nat, bno: Word, data: Block)

  ghost predicate WritesOk(g: Layout, ws: seq<Write>) {
    forall i :: 0 <= i < |ws| ==> g.Home(ws[i].bno)
  }

  ghost predicate GroupsOk(g: Layout, gs: seq<seq<Write>>) {
    forall k :: 0 <= k < |gs| ==> WritesOk(g, gs[k])
  }

  /** The disk image after the writes `ws`, in order. */
  function ApplyWrites(g: Layout, d: Disk, ws: seq<Write>): (r: Disk)
    requires |d| == g.size && WritesOk(g, ws)
    ensures |r| == |d|
  {
    if ws == [] then d
    else
      var w := ws[|ws| - 1];
      ApplyWrites(g, d, ws[..|ws| - 1])[w.bno := w.data]
  }

  /** The disk image after whole commit groups. */
  function ApplyGroups(g: Layout, d: Disk, gs: seq<seq<Write>>): (r: Disk)
    requires |d| == g.size && GroupsOk(g, gs)
    ensures |r| == |d|
  {
    if gs == [] then d
    else ApplyWrites(g, ApplyGroups(g, d, gs[..|gs| - 1]), gs[|gs| - 1])
  }

  ghost predicate Mentions(ws: seq<Write>, op: nat) {
    exists i :: 0 <= i < |ws| && ws[i].op == op
  }

  // --------------------------------------------------------------- machine

  /** A system call between begin_op and end_op, and how many log entries it has added. */
  datatype Op = Op(id: nat, added: nat)

  /** Where the one committing (or recovering) thread stands. */
  datatype Phase =
    | Running                // log.committing == 0
    | WriteLog(tail: nat)    // in write_log: `tail` blocks copied to the log
    | Install(tail: nat)     // header written; `tail` blocks installed
    | Finish                 // commit() has returned, log.committing still set
    | Boot                   // just (re)booted: read_head comes next
    | Recovering(tail: nat)  // install_trans(1): `tail` blocks installed

  datatype State = State(
    disk: Disk,
    view: Disk,            // what bread returns: cached contents, dirty ones included
    lh: seq<Word>,         // log.lh in memory
    active: seq<Op>,       // the log.outstanding system calls
    phase: Phase,
    // history
    base: Disk,            // home contents at the beginning
    groups: seq<seq<Write>>,
    open: seq<Write>,      // the group being filled
    durable: nat,          // groups past their commit point
    returned: nat,         // groups whose committing end_op has returned
    begun: set<nat>,       // every system call id ever used
    trace: seq<Disk>)      // what the disk has held, write by write

  datatype Event =
    | BeginOp(id: nat)
    | LogWrite(i: nat, bno: Word, data: Block)   // by active[i]
    | EndOp(j: nat)                              // by active[j]
    | CopyBlock | WriteHead | InstallBlock | ClearHead | Return
    | Crash | ReadHead | RecoverBlock | RecoverClear

  /** The guards of log.c. A panic disables the event: the machine halts there. */
  ghost predicate Enabled(g: Layout, s: State, e: Event) {
    match e
    case BeginOp(id) =>
      s.phase.Running? && |s.lh| + (|s.active| + 1) * MAXOPBLOCKS <= LOGBLOCKS && id !in s.begun
    case LogWrite(i, bno, data) =>
      s.phase.Running? && i < |s.active| && g.Home(bno) && |s.lh| < LOGBLOCKS
    case EndOp(j) => s.phase.Running? && j < |s.active|
    case CopyBlock => s.phase.WriteLog? && s.phase.tail < |s.lh|
    case WriteHead => s.phase.WriteLog? && s.phase.tail == |s.lh|
    case InstallBlock => s.phase.Install? && s.phase.tail < |s.lh|
    case ClearHead => s.phase.Install? && s.phase.tail == |s.lh|
    case Return => s.phase.Finish?
    case Crash => true
    case ReadHead => s.phase.Boot?
    case RecoverBlock => s.phase.Recovering? && s.phase.tail < |s.lh|
    case RecoverClear => s.phase.Recovering? && s.phase.tail == |s.lh|
  }

  function Remove<T>(s: seq<T>, i: nat): (r: seq<T>)
    requires i < |s|
  {
    s[..i] + s[i + 1..]
  }

  /** log_write: absorb a block already in the log, else append it. */
  function Absorb(lh: seq<Word>, bno: Word): (r: seq<Word>) {
    if bno in lh then lh else lh + [bno]
  }

  /** One block written, in the cache and on disk. */
  function Put(s: State, b: nat, x: Block): (s': State)
    requires b < |s.disk| && b < |s.view|
  {
    var d := s.disk[b := x];
    s.(disk := d, view := s.view[b := x], trace := s.trace + [d])
  }

  ghost function Apply(g: Layout, s: State, e: Event): (s': State)
    requires Shape(g, s) && Enabled(g, s, e)
  {
    match e
    case BeginOp(id) =>
      s.(active := s.active + [Op(id, 0)], begun := s.begun + {id})
    case LogWrite(i, bno, data) =>
      var op := s.active[i];
      s.(view := s.view[bno := data],
         lh := Absorb(s.lh, bno),
         active := if bno in s.lh then s.active else s.active[i := op.(added := op.added + 1)],
         open := s.open + [Write(op.id, bno, data)])
    case EndOp(j) =>
      if |s.active| > 1 then s.(active := Remove(s.active, j))
      else if s.lh == [] then
        s.(active := [], groups := s.groups + [s.open], open := [], durable := s.durable + 1, phase := Finish)
      else
        s.(active := [], groups := s.groups + [s.open], open := [], phase := WriteLog(0))
    case CopyBlock =>
      var t := s.phase.tail;
      Put(s, g.start + 1 + t, s.view[s.lh[t]]).(phase := WriteLog(t + 1))
    case WriteHead =>
      var h := WithHeader(s.view[g.start], s.lh);
      Put(s, g.start, h).(durable := s.durable + 1, phase := Install(0))
    case InstallBlock =>
      var t := s.phase.tail;
      var x := s.view[g.start + 1 + t];
      Put(s, s.lh[t], x).(phase := Install(t + 1))
    case ClearHead =>
      var h := WithHeader(s.view[g.start], []);
      Put(s, g.start, h).(lh := [], phase := Finish)
    case Return =>
      s.(phase := Running, returned := |s.groups|)
    case Crash =>
      s.(view := s.disk, lh := [], active := [], open := [], phase := Boot,
         groups := s.groups[..s.durable])
    case ReadHead =>
      s.(lh := HeaderOf(s.view[g.start]), phase := Recovering(0))
    case RecoverBlock =>
      var t := s.phase.tail;
      var x := s.view[g.start + 1 + t];
      Put(s, s.lh[t], x).(phase := Recovering(t + 1))
    case RecoverClear =>
      var h := WithHeader(s.view[g.start], []);
      Put(s, g.start, h).(lh := [], phase := Running)
  }

  /** Any well-formed disk, also one with a committed but uninstalled log, may be booted. */
  ghost function Init(g: Layout, d: Disk): (s: State)
    requires DiskOk(g, d)
  {
    State(d, d, [], [], Boot, Recover(g, d), [], [], 0, 0, {}, [d])
  }

  // ------------------------------------------------------------ invariants

  /** Sizes and ranges: what makes every step well defined. */
  ghost predicate Shape(g: Layout, s: State) {
    && DiskOk(g, s.disk)
    && |s.view| == g.size == |s.base|
    && HeaderOk(g, s.lh)
    && (s.phase.Boot? ==> s.view == s.disk)
    && (s.phase.WriteLog? || s.phase.Install? || s.phase.Recovering? ==> s.phase.tail <= |s.lh|)
    && GroupsOk(g, s.groups) && WritesOk(g, s.open)
    && s.returned <= s.durable <= |s.groups|
  }

  ghost function Durable(g: Layout, s: State): Disk
    requires Shape(g, s)
  {
    ApplyGroups(g, s.base, s.groups[..s.durable])
  }

  ghost function All(g: Layout, s: State): Disk
    requires Shape(g, s)
  {
    ApplyGroups(g, s.base, s.groups)
  }

  /** Only blocks in the log may be dirty in the cache. */
  ghost predicate CleanOutside(g: Layout, s: State)
    requires Shape(g, s)
  {
    && (forall b :: g.Home(b) && !Named(s.lh, 0, b) ==> s.view[b] == s.disk[b])
    && (forall b :: g.InLog(b) ==> s.view[b] == s.disk[b])
  }

  ghost predicate Logged(g: Layout, s: State, t: nat)
    requires Shape(g, s) && t <= |s.lh|
  {
    forall i :: 0 <= i < t ==> s.disk[g.start + 1 + i] == s.view[s.lh[i]]
  }

  ghost predicate RunningInv(g: Layout, s: State)
    requires Shape(g, s)
  {
    && CleanOutside(g, s)
    && s.durable == |s.groups| && HeaderOf(s.disk[g.start]) == []
    && SameHome(g, s.disk, All(g, s))
    && SameHome(g, s.view, ApplyWrites(g, All(g, s), s.open))
    && (s.active == [] ==> s.open == [] && s.lh == [])
  }

  ghost predicate WriteLogInv(g: Layout, s: State, t: nat)
    requires Shape(g, s) && t <= |s.lh|
  {
    && CleanOutside(g, s)
    && s.durable + 1 == |s.groups| && HeaderOf(s.disk[g.start]) == []
    && SameHome(g, s.disk, Durable(g, s)) && SameHome(g, s.view, All(g, s))
    && Logged(g, s, t)
  }

  ghost predicate InstallInv(g: Layout, s: State, t: nat)
    requires Shape(g, s) && t <= |s.lh|
  {
    && CleanOutside(g, s)
    && s.durable == |s.groups| && HeaderOf(s.disk[g.start]) == s.lh
    && SameHome(g, s.view, All(g, s))
    && Logged(g, s, |s.lh|)
    && (forall i :: 0 <= i < t ==> s.disk[s.lh[i]] == s.view[s.lh[i]])
  }

  ghost predicate FinishInv(g: Layout, s: State)
    requires Shape(g, s)
  {
    && CleanOutside(g, s)
    && s.durable == |s.groups| && HeaderOf(s.disk[g.start]) == [] && s.lh == []
    && SameHome(g, s.disk, All(g, s))
  }

  ghost predicate BootInv(g: Layout, s: State)
    requires Shape(g, s)
  {
    s.durable == |s.groups| && SameHome(g, Recover(g, s.disk), All(g, s))
  }

  ghost predicate RecoveringInv(g: Layout, s: State, t: nat)
    requires Shape(g, s) && t <= |s.lh|
  {
    && s.durable == |s.groups| && HeaderOf(s.disk[g.start]) == s.lh
    && s.view == s.disk
    && SameHome(g, InstallFrom(g, s.disk, s.lh, 0), All(g, s))
    && SameHome(g, InstallFrom(g, s.disk, s.lh, t), All(g, s))
  }

  /** What holds of disk and cache at each point of the protocol. */
  ghost predicate PhaseInv(g: Layout, s: State)
    requires Shape(g, s)
  {
    && (!s.phase.Running? ==> s.active == [] && s.open == [])
    && match s.phase
       case Running => RunningInv(g, s)
       case WriteLog(t) => WriteLogInv(g, s, t)
       case Install(t) => InstallInv(g, s, t)
       case Finish => FinishInv(g, s)
       case Boot => BootInv(g, s)
       case Recovering(t) => RecoveringInv(g, s, t)
  }

  ghost predicate ActiveIs(s: State, op: nat) {
    exists i :: 0 <= i < |s.active| && s.active[i].id == op
  }

  /** A system call's writes lie in one group. */
  ghost predicate OpInv(s: State) {
    && (forall k, op :: 0 <= k < |s.groups| && Mentions(s.groups[k], op) ==>
          op in s.begun && !Mentions(s.open, op) && !ActiveIs(s, op))
    && (forall k, l, op :: 0 <= k < l < |s.groups| && Mentions(s.groups[k], op) ==> !Mentions(s.groups[l], op))
    && (forall op :: Mentions(s.open, op) || ActiveIs(s, op) ==> op in s.begun)
  }

  ghost predicate Inv(g: Layout, s: State) {
    Shape(g, s) && PhaseInv(g, s) && OpInv(s)
  }

  // ---------------------------------------------------- one step at a time

  lemma ClientShape(g: Layout, s: State, e: Event)
    requires Inv(g, s) && Enabled(g, s, e) && (e.BeginOp? || e.LogWrite? || e.EndOp?)
    ensures Shape(g, Apply(g, s, e))
  {
  }

  lemma CommitShape(g: Layout, s: State, e: Event)
    requires Inv(g, s) && Enabled(g, s, e)
    requires e.CopyBlock? || e.WriteHead? || e.InstallBlock? || e.ClearHead? || e.Return?
    ensures Shape(g, Apply(g, s, e))
  {
  }

  lemma RecoveryShape(g: Layout, s: State, e: Event)
    requires Inv(g, s) && Enabled(g, s, e)
    requires e.Crash? || e.ReadHead? || e.RecoverBlock? || e.RecoverClear?
    ensures Shape(g, Apply(g, s, e))
  {
    HeaderRoundTrip(s.view[g.start], []);
  }

  lemma NamedAbsorb(lh: seq<Word>, bno: Word, b: int)
    ensures Named(Absorb(lh, bno), 0, b) <==> Named(lh, 0, b) || b == bno
  {
    var lh' := Absorb(lh, bno);
    if Named(lh, 0, b) {
      var i :| 0 <= i < |lh| && lh[i] == b;
      assert lh'[i] == b;
    }
    if bno in lh {
      var i :| 0 <= i < |lh| && lh[i] == bno;
      assert lh'[i] == bno;
    } else {
      assert lh'[|lh|] == bno;
    }
  }

  lemma StepLogWrite(g: Layout, s: State, e: Event)
    requires Shape(g, s) && RunningInv(g, s) && Enabled(g, s, e) && e.LogWrite?
    requires Shape(g, Apply(g, s, e))
    ensures RunningInv(g, Apply(g, s, e))
  {
    var s' := Apply(g, s, e);
    assert s'.open[..|s'.open| - 1] == s.open;
    assert ApplyWrites(g, All(g, s'), s'.open) == ApplyWrites(g, All(g, s), s.open)[e.bno := e.data];
    forall b | g.Home(b) && !Named(s'.lh, 0, b) ensures s'.view[b] == s'.disk[b] {
      NamedAbsorb(s.lh, e.bno, b);
    }
  }

  /** The last end_op closes the group: it is not durable yet, but the cache already shows it. */
  lemma StepEndOp(g: Layout, s: State, e: Event)
    requires Shape(g, s) && RunningInv(g, s) && Enabled(g, s, e) && e.EndOp? && |s.active| == 1
    requires Shape(g, Apply(g, s, e))
    ensures s.lh == [] ==> FinishInv(g, Apply(g, s, e))
    ensures s.lh != [] ==> WriteLogInv(g, Apply(g, s, e), 0)
  {
  }

  lemma StepCopyBlock(g: Layout, s: State, t: nat)
    requires Shape(g, s) && s.phase == WriteLog(t) && t < |s.lh| && WriteLogInv(g, s, t)
    requires Shape(g, Apply(g, s, CopyBlock))
    ensures WriteLogInv(g, Apply(g, s, CopyBlock), t + 1)
  {
  }

  lemma StepWriteHead(g: Layout, s: State)
    requires Shape(g, s) && s.phase == WriteLog(|s.lh|) && WriteLogInv(g, s, |s.lh|)
    requires Shape(g, Apply(g, s, WriteHead))
    ensures InstallInv(g, Apply(g, s, WriteHead), 0)
  {
  }

  /** Installing a block changes nothing a reader sees. */
  lemma StepInstallBlock(g: Layout, s: State, t: nat)
    requires Shape(g, s) && s.phase == Install(t) && t < |s.lh| && InstallInv(g, s, t)
    requires Shape(g, Apply(g, s, InstallBlock))
    ensures Apply(g, s, InstallBlock).view == s.view
    ensures InstallInv(g, Apply(g, s, InstallBlock), t + 1)
  {
  }

  lemma StepClearHead(g: Layout, s: State)
    requires Shape(g, s) && s.phase == Install(|s.lh|) && InstallInv(g, s, |s.lh|)
    requires Shape(g, Apply(g, s, ClearHead))
    ensures FinishInv(g, Apply(g, s, ClearHead))
  {
  }

  /** Crash anywhere: what recovery would make of the disk is the durable prefix. */
  lemma RecoverIsDurable(g: Layout, s: State)
    requires Inv(g, s)
    ensures SameHome(g, Recover(g, s.disk), Durable(g, s))
  {
    assert s.durable == |s.groups| ==> s.groups[..s.durable] == s.groups;
    match s.phase
    case Install(t) =>
      InstallReaches(g, s.disk, s.view, s.lh, 0);
    case _ =>
  }

  lemma StepCrash(g: Layout, s: State)
    requires Inv(g, s) && Shape(g, Apply(g, s, Crash))
    ensures BootInv(g, Apply(g, s, Crash))
  {
    RecoverIsDurable(g, s);
    var s' := Apply(g, s, Crash);
    assert s'.groups[..s'.durable] == s'.groups;
  }

  lemma StepRecoverBlock(g: Layout, s: State, t: nat)
    requires Shape(g, s) && s.phase == Recovering(t) && t < |s.lh| && RecoveringInv(g, s, t)
    requires Shape(g, Apply(g, s, RecoverBlock))
    ensures RecoveringInv(g, Apply(g, s, RecoverBlock), t + 1)
  {
    var s' := Apply(g, s, RecoverBlock);
    var b := s.lh[t];
    assert g.Home(b) && Named(s.lh, 0, b);
    assert s'.disk == s.disk[b := s.disk[g.start + 1 + t]] == s'.view;
    InstallAgree(g, s.disk, s'.disk, s.lh, 0);
  }

  lemma StepRecoverClear(g: Layout, s: State)
    requires Shape(g, s) && s.phase == Recovering(|s.lh|) && RecoveringInv(g, s, |s.lh|)
    requires s.active == [] && s.open == []
    requires Shape(g, Apply(g, s, RecoverClear))
    ensures RunningInv(g, Apply(g, s, RecoverClear))
  {
  }

  lemma MentionsAppend(ws: seq<Write>, w: Write, op: nat)
    ensures Mentions(ws + [w], op) <==> Mentions(ws, op) || w.op == op
  {
    if Mentions(ws, op) {
      var i :| 0 <= i < |ws| && ws[i].op == op;
      assert (ws + [w])[i].op == op;
    }
    if w.op == op {
      assert (ws + [w])[|ws|].op == op;
    }
  }

  lemma OpsBegin(g: Layout, s: State, id: nat)
    requires Inv(g, s) && Enabled(g, s, BeginOp(id))
    ensures OpInv(Apply(g, s, BeginOp(id)))
  {
    var s' := Apply(g, s, BeginOp(id));
    forall op ensures ActiveIs(s', op) ==> ActiveIs(s, op) || op == id {}
  }

  lemma OpsWrite(g: Layout, s: State, e: Event)
    requires Inv(g, s) && Enabled(g, s, e) && e.LogWrite?
    ensures OpInv(Apply(g, s, e))
  {
    var s' := Apply(g, s, e);
    var id := s.active[e.i].id;
    assert ActiveIs(s, id);
    forall op ensures ActiveIs(s', op) ==> ActiveIs(s, op) {}
    forall op ensures Mentions(s'.open, op) ==> Mentions(s.open, op) || op == id {
      MentionsAppend(s.open, Write(id, e.bno, e.data), op);
    }
  }

  lemma OpsEnd(g: Layout, s: State, e: Event)
    requires Inv(g, s) && Enabled(g, s, e) && e.EndOp?
    ensures OpInv(Apply(g, s, e))
  {
    var s' := Apply(g, s, e);
    forall op ensures ActiveIs(s', op) ==> ActiveIs(s, op) {}
    if |s.active| == 1 {
      CloseGroupOps(s, s');
    }
  }

  lemma CloseGroupOps(s: State, s': State)
    requires OpInv(s) && s'.groups == s.groups + [s.open] && s'.open == [] && s'.active == [] && s'.begun == s.begun
    ensures OpInv(s')
  {
    assert forall op :: !Mentions(s'.open, op) && !ActiveIs(s', op);
  }

  lemma SameHistoryOps(s: State, s': State)
    requires OpInv(s)
    requires s'.groups == s.groups && s'.open == s.open && s'.active == s.active && s'.begun == s.begun
    ensures OpInv(s')
  {
    forall op ensures ActiveIs(s', op) == ActiveIs(s, op) {}
  }

  lemma StepOps(g: Layout, s: State, e: Event)
    requires Inv(g, s) && Enabled(g, s, e)
    ensures OpInv(Apply(g, s, e))
  {
    match e
    case BeginOp(id) => OpsBegin(g, s, id);
    case LogWrite(_, _, _) => OpsWrite(g, s, e);
    case EndOp(_) => OpsEnd(g, s, e);
    case Crash =>
    case _ => SameHistoryOps(s, Apply(g, s, e));
  }

  lemma ClientPhase(g: Layout, s: State, e: Event)
    requires Inv(g, s) && Enabled(g, s, e) && Shape(g, Apply(g, s, e))
    requires e.BeginOp? || e.LogWrite? || e.EndOp?
    ensures PhaseInv(g, Apply(g, s, e))
  {
    match e
    case BeginOp(id) =>
    case LogWrite(_, _, _) => StepLogWrite(g, s, e);
    case EndOp(_) => if |s.active| == 1 { StepEndOp(g, s, e); }
  }

  lemma CommitPhase(g: Layout, s: State, e: Event)
    requires Inv(g, s) && Enabled(g, s, e) && Shape(g, Apply(g, s, e))
    requires e.CopyBlock? || e.WriteHead? || e.InstallBlock? || e.ClearHead? || e.Return?
    ensures PhaseInv(g, Apply(g, s, e))
  {
    match e
    case CopyBlock => StepCopyBlock(g, s, s.phase.tail);
    case WriteHead => StepWriteHead(g, s);
    case InstallBlock => StepInstallBlock(g, s, s.phase.tail);
    case ClearHead => StepClearHead(g, s);
    case Return =>
  }

  lemma StepReadHead(g: Layout, s: State)
    requires Inv(g, s) && Enabled(g, s, ReadHead) && Shape(g, Apply(g, s, ReadHead))
    ensures PhaseInv(g, Apply(g, s, ReadHead))
  {
  }

  lemma RecoveryPhase(g: Layout, s: State, e: Event)
    requires Inv(g, s) && Enabled(g, s, e) && Shape(g, Apply(g, s, e))
    requires e.Crash? || e.ReadHead? || e.RecoverBlock? || e.RecoverClear?
    ensures PhaseInv(g, Apply(g, s, e))
  {
    match e
    case Crash => StepCrash(g, s);
    case ReadHead => StepReadHead(g, s);
    case RecoverBlock => StepRecoverBlock(g, s, s.phase.tail);
    case RecoverClear => StepRecoverClear(g, s);
  }

  lemma StepInv(g: Layout, s: State, e: Event)
    requires Inv(g, s) && Enabled(g, s, e)
    ensures Inv(g, Apply(g, s, e))
  {
    StepOps(g, s, e);
    if e.BeginOp? || e.LogWrite? || e.EndOp? {
      ClientShape(g, s, e);
      ClientPhase(g, s, e);
    } else if e.Crash? || e.ReadHead? || e.RecoverBlock? || e.RecoverClear? {
      RecoveryShape(g, s, e);
      RecoveryPhase(g, s, e);
    } else {
      CommitShape(g, s, e);
      CommitPhase(g, s, e);
    }
  }
}
