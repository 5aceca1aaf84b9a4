/**
 * What holds over all runs of the log machine: crash atomicity, durability, and
 * that the log never overflows.
 */
module LogRuns {
  import opened Common
  import opened DiskTypes
  import opened LogModel

  datatype Outcome = Stuck | At(state: State)

  /** The state after the events `es` from booting disk `d`; Stuck if a guard fails on the way. */
  ghost function Exec(g: Layout, d: Disk, es: seq<Event>): (r: Outcome)
    requires DiskOk(g, d)
  {
    if es == [] then At(Init(g, d))
    else
      var before := Exec(g, d, es[..|es| - 1]);
      if before.At? && Shape(g, before.state) && Enabled(g, before.state, es[|es| - 1])
      then At(Apply(g, before.state, es[|es| - 1]))
      else Stuck
  }

  /** Every state a run reaches satisfies the invariant. */
  lemma {:induction false} ExecInv(g: Layout, d: Disk, es: seq<Event>)
    requires DiskOk(g, d) && Exec(g, d, es).At?
    ensures Inv(g, Exec(g, d, es).state) && Exec(g, d, es).state.base == Recover(g, d)
  {
    if es == [] {
      InitInv(g, d);
    } else {
      ExecInv(g, d, es[..|es| - 1]);
      StepInv(g, Exec(g, d, es[..|es| - 1]).state, es[|es| - 1]);
    }
  }

  lemma InitInv(g: Layout, d: Disk)
    requires DiskOk(g, d)
    ensures Inv(g, Init(g, d))
  {
  }

  lemma RunWithoutLast(g: Layout, d: Disk, es: seq<Event>)
    requires DiskOk(g, d) && es != [] && Exec(g, d, es).At?
    ensures Exec(g, d, es[..|es| - 1]).At?
  {
  }

  /** The last step of a run, seen from the state before it. */
  lemma LastStep(g: Layout, d: Disk, es: seq<Event>) returns (s: State)
    requires DiskOk(g, d) && es != [] && Exec(g, d, es).At?
    ensures Exec(g, d, es[..|es| - 1]) == At(s)
    ensures Inv(g, s) && Enabled(g, s, es[|es| - 1]) && Exec(g, d, es).state == Apply(g, s, es[|es| - 1])
  {
    s := Exec(g, d, es[..|es| - 1]).state;
    ExecInv(g, d, es[..|es| - 1]);
  }

  /** Every prefix of a run is a run. */
  lemma {:induction false} PrefixRuns(g: Layout, d: Disk, es: seq<Event>, k: nat)
    requires DiskOk(g, d) && Exec(g, d, es).At? && k <= |es|
    ensures Exec(g, d, es[..k]).At?
    decreases |es|
  {
    if k == |es| {
      assert es[..k] == es;
    } else {
      var init := es[..|es| - 1];
      assert init[..k] == es[..k];
      RunWithoutLast(g, d, es);
      PrefixRuns(g, d, init, k);
    }
  }

  /**
   * Recovering the disk of `s` gives the home contents after a whole number of commit
   * groups, and no fewer than those whose end_op had returned.
   */
  ghost predicate Safe(g: Layout, d: Disk, s: State) {
    && DiskOk(g, d) && Inv(g, s) && s.returned <= s.durable <= |s.groups|
    && SameHome(g, Recover(g, s.disk), ApplyGroups(g, Recover(g, d), s.groups[..s.durable]))
  }

  /** Crash atomicity: stop any run after any event, and recovery of the disk found there is safe. */
  lemma CrashAtomicity(g: Layout, d: Disk, es: seq<Event>, k: nat)
    requires DiskOk(g, d) && Exec(g, d, es).At? && k <= |es|
    ensures Exec(g, d, es[..k]).At? && Safe(g, d, Exec(g, d, es[..k]).state)
  {
    PrefixRuns(g, d, es, k);
    ExecInv(g, d, es[..k]);
    RecoverIsDurable(g, Exec(g, d, es[..k]).state);
  }

  /** How many contents the disk has had when the first `q` events are over. */
  ghost function Writes(g: Layout, d: Disk, es: seq<Event>, q: nat): (n: nat)
    requires DiskOk(g, d) && q <= |es|
  {
    if Exec(g, d, es[..q]).At? then |Exec(g, d, es[..q]).state.trace| else 0
  }

  /** Every write to the disk, and nothing else, is recorded. */
  lemma StepTrace(g: Layout, s: State, e: Event)
    requires Inv(g, s) && Enabled(g, s, e)
    ensures var s' := Apply(g, s, e);
            (s'.disk == s.disk && s'.trace == s.trace) || s'.trace == s.trace + [s'.disk]
  {
  }

  /** The run `es` ends in `s`. */
  ghost predicate Ends(g: Layout, d: Disk, es: seq<Event>, s: State) {
    DiskOk(g, d) && forall k: int {:trigger Asked(k)} :: Asked(k) ==> Exec(g, d, es) == At(s)
  }

  lemma LastTrace(g: Layout, d: Disk, es: seq<Event>, s': State) returns (s: State)
    requires es != [] && Ends(g, d, es, s')
    ensures Ends(g, d, es[..|es| - 1], s)
    ensures (s'.disk == s.disk && s'.trace == s.trace) || s'.trace == s.trace + [s'.disk]
  {
    assert Asked(0);
    s := LastStep(g, d, es);
    StepTrace(g, s, es[|es| - 1]);
  }

  /** The last content is the disk as it is. */
  lemma {:induction false} TraceEnds(g: Layout, d: Disk, es: seq<Event>, s: State)
    requires Ends(g, d, es, s)
    ensures |s.trace| > 0 && s.trace[|s.trace| - 1] == s.disk
  {
    if es == [] {
      assert Asked(0);
    } else {
      var s0 := LastTrace(g, d, es, s);
      TraceEnds(g, d, es[..|es| - 1], s0);
    }
  }

  /** Whatever the disk has held in a run, it held at some moment of the run; `j` is the last such moment. */
  lemma {:induction false} TraceIs(g: Layout, d: Disk, es: seq<Event>, k: nat) returns (j: nat)
    requires DiskOk(g, d) && Exec(g, d, es).At? && k < |Exec(g, d, es).state.trace|
    ensures j <= |es| && Exec(g, d, es[..j]).At? && Exec(g, d, es[..j]).state.disk == Exec(g, d, es).state.trace[k]
    ensures Writes(g, d, es, j) == k + 1 && forall q :: j < q <= |es| ==> Writes(g, d, es, q) > k + 1
    decreases |es|
  {
    j := |es|;
    assert es[..j] == es;
    if k + 1 == |Exec(g, d, es).state.trace| {
      TraceEnds(g, d, es, Exec(g, d, es).state);
    } else if es != [] {
      var s0 := LastTrace(g, d, es, Exec(g, d, es).state);
      assert Asked(0);
      var init := es[..|es| - 1];
      j := TraceIs(g, d, init, k);
      WritesPrefix(g, d, es, j);
      forall q | j < q <= |es| ensures Writes(g, d, es, q) > k + 1 {
        WritesPrefix(g, d, es, q);
      }
    }
  }

  lemma WritesPrefix(g: Layout, d: Disk, es: seq<Event>, q: nat)
    requires DiskOk(g, d) && es != [] && q <= |es|
    ensures q < |es| ==> es[..|es| - 1][..q] == es[..q] && Writes(g, d, es, q) == Writes(g, d, es[..|es| - 1], q)
    ensures q == |es| ==> es[..q] == es
  {
    assert q < |es| ==> es[..|es| - 1][..q] == es[..q];
  }

  lemma OneGroup(s: State, op: nat)
    requires OpInv(s) && s.durable <= |s.groups|
    ensures || ((forall k :: s.durable <= k < |s.groups| ==> !Mentions(s.groups[k], op)) && !Mentions(s.open, op))
            || (forall k :: 0 <= k < s.durable ==> !Mentions(s.groups[k], op))
  {
  }

  /** A system call's logged writes all survive a crash or are all lost. */
  lemma AllOrNothing(g: Layout, d: Disk, es: seq<Event>, op: nat)
    requires DiskOk(g, d) && Exec(g, d, es).At?
    ensures Inv(g, Exec(g, d, es).state)
    ensures var s := Exec(g, d, es).state;
            || ((forall k :: s.durable <= k < |s.groups| ==> !Mentions(s.groups[k], op)) && !Mentions(s.open, op))
            || (forall k :: 0 <= k < s.durable ==> !Mentions(s.groups[k], op))
  {
    ExecInv(g, d, es);
    OneGroup(Exec(g, d, es).state, op);
  }

  /** Recovery that runs to its end really leaves the recovered contents on disk, with an empty log. */
  lemma RecoveryRestores(g: Layout, d: Disk, es: seq<Event>)
    requires DiskOk(g, d) && Exec(g, d, es + [RecoverClear]).At?
    ensures var s := Exec(g, d, es + [RecoverClear]).state;
            && Inv(g, s)
            && s.groups == s.groups[..s.durable]
            && HeaderOf(s.disk[g.start]) == []
            && SameHome(g, s.disk, ApplyGroups(g, Recover(g, d), s.groups))
  {
    var fs := es + [RecoverClear];
    var _ := LastStep(g, d, fs);
    ExecInv(g, d, fs);
  }

  /** Everything durable in `s` is durable in `t`, and everything acknowledged still acknowledged. */
  ghost predicate Extends(s: State, t: State) {
    && s.returned <= s.durable <= |s.groups| && t.returned <= t.durable <= |t.groups|
    && s.groups[..s.durable] <= t.groups[..t.durable]
    && s.groups[..s.returned] <= t.groups[..t.returned]
  }

  lemma StepExtends(g: Layout, r: State, s: State, e: Event)
    requires Inv(g, s) && Enabled(g, s, e) && Extends(r, s)
    ensures Extends(r, Apply(g, s, e))
  {
  }

  lemma LastExtends(g: Layout, d: Disk, r: State, es: seq<Event>)
    requires DiskOk(g, d) && es != [] && Exec(g, d, es).At?
    requires Exec(g, d, es[..|es| - 1]).At? && Extends(r, Exec(g, d, es[..|es| - 1]).state)
    ensures Extends(r, Exec(g, d, es).state)
  {
    var s := LastStep(g, d, es);
    StepExtends(g, r, s, es[|es| - 1]);
  }

  /**
   * Durability: what was acknowledged by a returned end_op stays a prefix of what
   * survives, across any later events, crashes included.
   */
  lemma {:induction false} AcknowledgedStays(g: Layout, d: Disk, es: seq<Event>, fs: seq<Event>)
    requires DiskOk(g, d) && Exec(g, d, es + fs).At?
    ensures Exec(g, d, es).At?
    ensures Extends(Exec(g, d, es).state, Exec(g, d, es + fs).state)
    decreases |fs|
  {
    if fs == [] {
      assert es + fs == es;
      ExecInv(g, d, es);
    } else {
      var init, all := fs[..|fs| - 1], es + fs;
      assert all[..|all| - 1] == es + init;
      RunWithoutLast(g, d, all);
      AcknowledgedStays(g, d, es, init);
      LastExtends(g, d, Exec(g, d, es).state, all);
    }
  }

  /** The state after the first `j` events is safe, and what was acknowledged then has not been lost since. */
  lemma Moment(g: Layout, d: Disk, es: seq<Event>, j: nat, pre: seq<Event>, post: seq<Event>) returns (s: State)
    requires DiskOk(g, d) && Exec(g, d, es).At? && j <= |es| && pre == es[..j] && post == es[j..]
    ensures Exec(g, d, pre) == At(s) && Safe(g, d, s) && Extends(s, Exec(g, d, es).state)
  {
    CrashAtomicity(g, d, es, j);
    s := Exec(g, d, pre).state;
    assert pre + post == es;
    AcknowledgedStays(g, d, pre, post);
  }

  /**
   * So is every content the disk has had in a run, write by write; and whatever had been acknowledged by any
   * moment `q` up to then is among what survives.
   */
  lemma EveryDisk(g: Layout, d: Disk, es: seq<Event>, k: nat) returns (s: State)
    requires DiskOk(g, d) && Exec(g, d, es).At? && k < |Exec(g, d, es).state.trace|
    ensures Safe(g, d, s) && s.disk == Exec(g, d, es).state.trace[k] && Extends(s, Exec(g, d, es).state)
    ensures forall q :: 0 <= q <= |es| && 0 < Writes(g, d, es, q) <= k + 1 ==> Extends(Exec(g, d, es[..q]).state, s)
  {
    var j := TraceIs(g, d, es, k);
    var pre, post := es[..j], es[j..];
    s := Moment(g, d, es, j, pre, post);
    forall q | 0 <= q <= |es| && 0 < Writes(g, d, es, q) <= k + 1 ensures Extends(Exec(g, d, es[..q]).state, s) {
      Earlier(g, d, es, q, j);
    }
  }

  lemma Earlier(g: Layout, d: Disk, es: seq<Event>, q: nat, j: nat)
    requires DiskOk(g, d) && q <= j <= |es| && Exec(g, d, es[..j]).At?
    ensures Exec(g, d, es[..q]).At? && Extends(Exec(g, d, es[..q]).state, Exec(g, d, es[..j]).state)
  {
    assert es[..q] + es[q..j] == es[..j];
    AcknowledgedStays(g, d, es[..q], es[q..j]);
  }

  /** When end_op returns after a commit, everything logged so far is acknowledged. */
  lemma ReturnAcknowledges(g: Layout, d: Disk, es: seq<Event>)
    requires DiskOk(g, d) && Exec(g, d, es + [Return]).At?
    ensures var s := Exec(g, d, es + [Return]).state;
            s.returned == s.durable == |s.groups| && s.open == []
  {
    var fs := es + [Return];
    var _ := LastStep(g, d, fs);
    ExecInv(g, d, fs);
  }

  // ------------------------------------------------------------- log space

  /** Log entries still promised to the running system calls. */
  function Reserved(ops: seq<Op>): (n: int) {
    if ops == [] then 0 else Reserved(ops[..|ops| - 1]) + MAXOPBLOCKS - ops[|ops| - 1].added
  }

  ghost predicate InBudget(ops: seq<Op>) {
    forall i :: 0 <= i < |ops| ==> ops[i].added <= MAXOPBLOCKS
  }

  lemma {:induction false} ReservedBounds(ops: seq<Op>)
    requires InBudget(ops)
    ensures 0 <= Reserved(ops) <= |ops| * MAXOPBLOCKS
    ensures forall i :: 0 <= i < |ops| ==> MAXOPBLOCKS - ops[i].added <= Reserved(ops)
  {
    if ops != [] {
      var init := ops[..|ops| - 1];
      ReservedBounds(init);
      forall i | 0 <= i < |ops| ensures MAXOPBLOCKS - ops[i].added <= Reserved(ops) {
        if i < |init| {
          assert init[i] == ops[i];
        }
      }
    }
  }

  lemma {:induction false} ReservedUpdate(ops: seq<Op>, i: nat, op: Op)
    requires i < |ops|
    ensures Reserved(ops[i := op]) == Reserved(ops) + ops[i].added - op.added
  {
    var last := |ops| - 1;
    if i == last {
      assert ops[i := op][..last] == ops[..last];
    } else {
      assert ops[i := op][..last] == ops[..last][i := op];
      ReservedUpdate(ops[..last], i, op);
    }
  }

  lemma {:induction false} ReservedRemove(ops: seq<Op>, j: nat)
    requires j < |ops|
    ensures Reserved(Remove(ops, j)) == Reserved(ops) - (MAXOPBLOCKS - ops[j].added)
  {
    var last := |ops| - 1;
    var r := Remove(ops, j);
    if j == last {
      assert r == ops[..last];
    } else {
      assert r[..|r| - 1] == Remove(ops[..last], j);
      ReservedRemove(ops[..last], j);
    }
  }

  /** log entries plus outstanding reservations fit the log. */
  ghost predicate SpaceInv(s: State) {
    s.phase.Running? ==> InBudget(s.active) && |s.lh| + Reserved(s.active) <= LOGBLOCKS
  }

  /** A caller obeys the rule of log.c: it logs only while it has added fewer than MAXOPBLOCKS entries. */
  ghost predicate Obeys(s: State, e: Event) {
    e.LogWrite? && e.i < |s.active| ==> s.active[e.i].added < MAXOPBLOCKS
  }

  ghost predicate ObeysAll(g: Layout, d: Disk, es: seq<Event>)
    requires DiskOk(g, d)
  {
    forall k :: 0 <= k < |es| && Exec(g, d, es[..k]).At? ==> Obeys(Exec(g, d, es[..k]).state, es[k])
  }

  lemma BeginSpace(g: Layout, s: State, e: Event)
    requires Inv(g, s) && SpaceInv(s) && Enabled(g, s, e) && e.BeginOp?
    ensures SpaceInv(Apply(g, s, e))
  {
    var s' := Apply(g, s, e);
    ReservedBounds(s.active);
    assert s'.active[..|s.active|] == s.active;
    assert InBudget(s'.active);
  }

  lemma LogSpace(g: Layout, s: State, e: Event)
    requires Inv(g, s) && SpaceInv(s) && Enabled(g, s, e) && Obeys(s, e) && e.LogWrite?
    ensures SpaceInv(Apply(g, s, e))
  {
    ReservedUpdate(s.active, e.i, s.active[e.i].(added := s.active[e.i].added + 1));
  }

  lemma EndSpace(g: Layout, s: State, e: Event)
    requires Inv(g, s) && SpaceInv(s) && Enabled(g, s, e) && e.EndOp?
    ensures SpaceInv(Apply(g, s, e))
  {
    if |s.active| > 1 { ReservedRemove(s.active, e.j); }
  }

  /** The other steps begin with no system call under way. */
  lemma IdleSpace(g: Layout, s: State, e: Event)
    requires Inv(g, s) && Enabled(g, s, e) && !e.BeginOp? && !e.LogWrite? && !e.EndOp?
    ensures SpaceInv(Apply(g, s, e))
  {
    assert e.Crash? || s.active == [];
  }

  lemma StepSpace(g: Layout, s: State, e: Event)
    requires Inv(g, s) && SpaceInv(s) && Enabled(g, s, e) && Obeys(s, e)
    ensures SpaceInv(Apply(g, s, e))
  {
    match e
    case BeginOp(id) => BeginSpace(g, s, e);
    case LogWrite(i, bno, data) => LogSpace(g, s, e);
    case EndOp(j) => EndSpace(g, s, e);
    case _ => IdleSpace(g, s, e);
  }

  lemma {:induction false} SpaceOverRuns(g: Layout, d: Disk, es: seq<Event>)
    requires DiskOk(g, d) && Exec(g, d, es).At? && ObeysAll(g, d, es)
    ensures SpaceInv(Exec(g, d, es).state)
  {
    if es != [] {
      var init := es[..|es| - 1];
      forall k | 0 <= k < |init| && Exec(g, d, init[..k]).At?
        ensures Obeys(Exec(g, d, init[..k]).state, init[k])
      {
        assert init[..k] == es[..k];
      }
      RunWithoutLast(g, d, es);
      SpaceOverRuns(g, d, init);
      var s := LastStep(g, d, es);
      StepSpace(g, s, es[|es| - 1]);
    }
  }

  /**
   * "too big a transaction", "log_write outside of trans" and "log.committing" are
   * unreachable: a system call with budget left can always log, and none runs
   * while a commit is under way.
   */
  lemma NoLogPanic(g: Layout, d: Disk, es: seq<Event>, i: nat, bno: Word, data: Block)
    requires DiskOk(g, d) && Exec(g, d, es).At? && ObeysAll(g, d, es)
    requires var s := Exec(g, d, es).state;
             i < |s.active| && s.active[i].added < MAXOPBLOCKS && g.Home(bno)
    ensures Enabled(g, Exec(g, d, es).state, LogWrite(i, bno, data))
    ensures Enabled(g, Exec(g, d, es).state, EndOp(i))
  {
    ExecInv(g, d, es);
    SpaceOverRuns(g, d, es);
    ReservedBounds(Exec(g, d, es).state.active);
  }
}
