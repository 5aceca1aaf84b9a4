/** What holds in every run of the process machine, whatever the interleaving. */
module ProcRuns {
  import opened Common
  import opened ProcModel
  import opened ProcInv
  import opened ProcSleep
  import opened ProcLife

  datatype Step =
    | Acquire(c: nat, p: nat, l: Lock)
    | Thread(c: nat, p: nat, d: Choice)
    | Sched(c: nat)

  ghost predicate Next(s: State, x: Step, s': State) {
    && Shape(s)
    && match x
       case Acquire(c, p, l) => CanAcquire(s, c, p, l) && s' == DoAcquireStep(s, c, p, l)
       case Thread(c, p, d) => CanWork(s, c, p, d) && InRange(s, p, Work(s, p, d))
         && s' == Perform(s, c, p, Work(s, p, d))
       case Sched(c) => CanSchedule(s, c) && s' == Schedule(s, c)
  }

  /** A run: the states it goes through, and the steps between them. */
  ghost predicate Run(ss: seq<State>, xs: seq<Step>) {
    && |ss| == |xs| + 1 && Initial(ss[0])
    && (forall k :: 0 <= k < |xs| ==> Next(ss[k], xs[k], ss[k + 1]))
  }

  /** There is a state to start from, for any table, CPUs and sleep-locks. */
  lemma Boots(n: nat, c: nat, m: nat) returns (s: State)
    requires n > 0
    ensures Initial(s) && |s.procs| == n && |s.cpus| == c && |s.slocks| == m
  {
    s := State(
      seq(n, p => if p == INIT then Proc(RUNNABLE, NoChan, false, 1, None) else Proc(UNUSED, NoChan, false, 0, None)),
      seq(n, p => if p == INIT then Forkret else Unborn),
      seq(c, _ => Cpu(None, Scan(0))), map[], seq(m, _ => SLock(false, 0)), 2,
      seq(n, _ => None), seq(m, _ => {}), {});
  }

  lemma InitialCore(s: State)
    requires Initial(s)
    ensures Core(s)
  {
  }

  lemma InitialInv(s: State)
    requires Initial(s)
    ensures Inv(s)
  {
    InitialCore(s);
  }

  lemma NextInv(s: State, x: Step, s': State)
    requires Inv(s) && Next(s, x, s')
    ensures Inv(s')
  {
    match x
    case Acquire(c, p, l) => AcquireLife(s, c, p, l);
    case Thread(c, p, d) => WorkLife(s, c, p, d);
    case Sched(c) => ScheduleLife(s, c);
  }

  lemma {:induction false} RunInv(ss: seq<State>, xs: seq<Step>, k: nat)
    requires Run(ss, xs) && k < |ss|
    ensures Inv(ss[k])
  {
    if k == 0 {
      InitialInv(ss[0]);
    } else {
      RunInv(ss, xs, k - 1);
      NextInv(ss[k - 1], xs[k - 1], ss[k]);
    }
  }

  /** What a thread step does stays within the tables. */
  lemma StaysInRange(ss: seq<State>, xs: seq<Step>, k: nat, c: nat, p: nat, d: Choice)
    requires Run(ss, xs) && k < |ss| && Shape(ss[k]) && CanWork(ss[k], c, p, d)
    ensures InRange(ss[k], p, Work(ss[k], p, d))
  {
    RunInv(ss, xs, k);
    WorkLife(ss[k], c, p, d);
  }

  // -------------------------------------------------------------- lock order

  /** The spin-lock that CPU `c` is about to acquire. */
  function CpuWants(s: State, c: nat): (l: Option<Lock>)
    requires c < |s.cpus|
  {
    match s.cpus[c].sched
    case Scan(i) => Some(PLock(i))
    case Away(p) => if p < |s.pcs| then Wants(|s.procs|, p, s.pcs[p]) else None
    case _ => None
  }

  /** That is the lock of the acquire that its thread or its scheduler would take next, if the lock were free. */
  lemma WantsIs(s: State, c: nat, l: Lock)
    requires Shape(s) && c < |s.cpus|
    ensures CpuWants(s, c) == Some(l) <==>
              || (exists p :: CanAcquire(s.(locks := map[]), c, p, l))
              || (s.cpus[c].sched.Scan? && l == PLock(s.cpus[c].sched.i))
  {
    var t := s.(locks := map[]);
    if s.cpus[c].sched.Away? && CpuWants(s, c) == Some(l) {
      assert CanAcquire(t, c, s.cpus[c].sched.i, l);
    }
  }

  /** Code inside a lock goes for another only from wait_lock or a sleep-lock's spin-lock, and then for a p->lock. */
  lemma LockOrder(s: State, c: nat, l: Lock)
    requires c < |s.cpus| && l in CpuHolds(s, c) && CpuWants(s, c).Some?
    ensures !l.PLock? && CpuWants(s, c).value.PLock?
  {
  }

  /**
   * Spin-locks cannot deadlock. A CPU never waits for a lock of its own, and whoever holds the lock it waits
   * for waits for none, or is inside a condition lock and waits for a p->lock whose holder waits for none.
   */
  lemma NoLockCycle(ss: seq<State>, xs: seq<Step>, k: nat, c: nat, l: Lock)
    requires Run(ss, xs) && k < |ss| && c < |ss[k].cpus| && CpuWants(ss[k], c) == Some(l) && l in ss[k].locks
    ensures var s, e := ss[k], ss[k].locks[l];
            && e < |s.cpus| && e != c
            && (CpuWants(s, e).Some? ==>
                  var m := CpuWants(s, e).value;
                  !l.PLock? && m.PLock? && (m in s.locks ==> s.locks[m] < |s.cpus| && CpuWants(s, s.locks[m]) == None))
  {
    RunInv(ss, xs, k);
    var s, e := ss[k], ss[k].locks[l];
    assert l in CpuHolds(s, e);
    if CpuWants(s, e).Some? {
      LockOrder(s, e, l);
      var m := CpuWants(s, e).value;
      if m in s.locks && CpuWants(s, s.locks[m]).Some? {
        assert m in CpuHolds(s, s.locks[m]);
        LockOrder(s, s.locks[m], m);
      }
    }
  }

  // -------------------------------------------------------- CPUs and stacks

  lemma OneCurrent(s: State, c: nat, e: nat, p: nat)
    requires Inv(s) && c < |s.cpus| && e < |s.cpus| && s.cpus[c].cur == Some(p) && s.cpus[e].cur == Some(p)
    ensures c == e
  {
    assert CpuOk(s, c) && CpuOk(s, e);
    if !s.cpus[c].sched.Away? && !s.cpus[e].sched.Away? {
      assert PLock(p) in CpuHolds(s, c) && PLock(p) in CpuHolds(s, e);
      OneHolder(s, c, e, PLock(p));
    }
  }

  /** No process is ever current on two CPUs. */
  lemma NoTwoCpus(ss: seq<State>, xs: seq<Step>, k: nat, c: nat, e: nat, p: nat)
    requires Run(ss, xs) && k < |ss| && c < |ss[k].cpus| && e < |ss[k].cpus|
    requires ss[k].cpus[c].cur == Some(p) && ss[k].cpus[e].cur == Some(p)
    ensures c == e
  {
    RunInv(ss, xs, k);
    OneCurrent(ss[k], c, e, p);
  }

  /** The slot a thread step hands to freeproc. */
  ghost function Frees(s: State, x: Step): (r: Option<nat>)
    requires Shape(s)
  {
    match x
    case Thread(c, p, d) =>
      if !CanWork(s, c, p, d) then None
      else if Work(s, p, d).thread == Some(Unborn) then Some(Work(s, p, d).j) else None
    case _ => None
  }

  lemma FreedWhere(s: State, c: nat, p: nat, d: Choice)
    requires Shape(s) && CanWork(s, c, p, d) && Work(s, p, d).thread == Some(Unborn)
    ensures var i := Work(s, p, d).j; s.pcs[p] == ForkCopy(i) || s.pcs[p] == WaitTest(i)
    ensures s.pcs[p].WaitTest? ==> s.procs[s.pcs[p].i].state == ZOMBIE
  {
    assert PcOk(|s.procs|, |s.slocks|, s.pcs[p]);
  }

  /** A CPU that holds p->lock of a process without a CPU keeps it off every other CPU. */
  lemma HeldIdle(s: State, c: nat, i: nat, e: nat)
    requires Core(s) && c < |s.cpus| && e < |s.cpus| && i < |s.at| && s.at[i] == None
    requires PLock(i) in CpuHolds(s, c) && s.cpus[c].cur != Some(i)
    ensures s.cpus[e].cur != Some(i) && s.cpus[e].sched != Away(i)
  {
    assert CpuOk(s, e);
    if s.cpus[e].cur == Some(i) {
      assert PLock(i) in CpuHolds(s, e);
      OneHolder(s, c, e, PLock(i));
    }
  }

  lemma FreedUnused(s: State, c: nat, p: nat, d: Choice, e: nat)
    requires Inv(s) && CanWork(s, c, p, d) && Work(s, p, d).thread == Some(Unborn) && e < |s.cpus|
    ensures var i := Work(s, p, d).j;
            i < |s.at| && s.at[i] == None && s.cpus[e].cur != Some(i) && s.cpus[e].sched != Away(i)
  {
    var i := Work(s, p, d).j;
    FreedWhere(s, c, p, d);
    WorkFacts(s, c, p);
    assert CpuOk(s, c);
    HeldIdle(s, c, i, e);
  }

  /** freeproc, in kwait and in kfork, gets only a process whose kernel stack no CPU uses. */
  lemma FreedStackIdle(ss: seq<State>, xs: seq<Step>, k: nat, i: nat, e: nat)
    requires Run(ss, xs) && k < |xs| && Shape(ss[k]) && Frees(ss[k], xs[k]) == Some(i) && e < |ss[k].cpus|
    ensures i < |ss[k].at| && ss[k].at[i] == None && ss[k].cpus[e].cur != Some(i) && ss[k].cpus[e].sched != Away(i)
  {
    RunInv(ss, xs, k);
    FreedUnused(ss[k], xs[k].c, xs[k].p, xs[k].d, e);
  }

  lemma SwitchChecked(s: State, c: nat, p: nat, d: Choice)
    requires Core(s) && CanWork(s, c, p, d)
    ensures !s.pcs[p].Dead?
    ensures Work(s, p, d).swtch ==> CpuHolds(s, c) == {PLock(p)} && s.procs[p].state != RUNNING
  {
    WorkFacts(s, c, p);
    WorkGood(s, c, p, d);
  }

  /** sched's panics ("sched p->lock", "sched locks", "sched RUNNING") and "zombie exit" are never reached. */
  lemma SchedNeverPanics(ss: seq<State>, xs: seq<Step>, k: nat)
    requires Run(ss, xs) && k < |xs| && xs[k].Thread? && Shape(ss[k]) && xs[k].p < |ss[k].procs|
             && xs[k].c < |ss[k].cpus|
    ensures var s, p := ss[k], xs[k].p;
            && !s.pcs[p].Dead?
            && (Work(s, p, xs[k].d).swtch ==> CpuHolds(s, xs[k].c) == {PLock(p)} && s.procs[p].state != RUNNING)
  {
    RunInv(ss, xs, k);
    assert Next(ss[k], xs[k], ss[k + 1]);
    SwitchChecked(ss[k], xs[k].c, xs[k].p, xs[k].d);
  }

  // --------------------------------------------------------- sleep and wakeup

  /** A thread inside a wakeup has a CPU, which holds the condition lock. */
  lemma WakerHolds(s: State, q: nat)
    requires Core(s) && q < |s.pcs| && s.pcs[q].Wake?
    ensures LkOf(s.pcs[q].ch) in s.locks
  {
    assert ProcOk(s, q);
    var e := s.at[q].value;
    assert s.cpus[e].sched == Away(q);
    assert LkOf(s.pcs[q].ch) in CpuHolds(s, e);
  }

  /** When wakeup(ch) ends, nobody else is asleep on ch or on the way to sleep there. */
  lemma WakeupMissesNobody(ss: seq<State>, xs: seq<Step>, k: nat, q: nat, x: nat)
    requires Run(ss, xs) && k < |ss| && Shape(ss[k]) && q < |ss[k].pcs| && x < |ss[k].pcs| && x != q
    requires ss[k].pcs[q].Wake? && ss[k].pcs[q].j == |ss[k].procs|
    ensures !InSleep(ss[k], x, ss[k].pcs[q].ch)
  {
    RunInv(ss, xs, k);
  }

  /** At most one process is between acquiresleep and releasesleep. */
  lemma OneSleepLockHolder(ss: seq<State>, xs: seq<Step>, k: nat, l: nat, p: nat, q: nat)
    requires Run(ss, xs) && k < |ss| && l < |ss[k].slocks| && l < |ss[k].inside| && p in ss[k].inside[l]
             && q in ss[k].inside[l]
    ensures p == q && ss[k].slocks[l] == SLock(true, p)
  {
    RunInv(ss, xs, k);
  }

  /** Nobody stays asleep on a free sleep-lock. */
  lemma FreeLockNoSleeper(ss: seq<State>, xs: seq<Step>, k: nat, l: nat, x: nat)
    requires Run(ss, xs) && k < |ss| && Shape(ss[k]) && l < |ss[k].slocks| && x < |ss[k].procs|
    requires !ss[k].slocks[l].locked && Inner(l) !in ss[k].locks
    ensures !InSleep(ss[k], x, LockChan(l))
  {
    var s := ss[k];
    RunInv(ss, xs, k);
    if InSleep(s, x, LockChan(l)) {
      var q :| 0 <= q < |s.pcs| && q != x && s.pcs[q].Wake? && s.pcs[q].ch == LockChan(l) && s.pcs[q].j <= x;
      WakerHolds(s, q);
    }
  }

  // -------------------------------------------------------------- exit and wait

  /** Whenever wait_lock is free, nobody asleep in kwait (or on the way to sleep there) has a ZOMBIE child. */
  lemma NoLostChild(ss: seq<State>, xs: seq<Step>, k: nat, p: nat, x: nat)
    requires Run(ss, xs) && k < |ss| && Shape(ss[k]) && p < |ss[k].procs| && x < |ss[k].procs|
    requires WaitLock !in ss[k].locks && ss[k].procs[x].parent == Some(p) && InSleep(ss[k], p, ProcChan(p))
    ensures ss[k].procs[x].state != ZOMBIE
  {
    var s := ss[k];
    RunInv(ss, xs, k);
    if s.procs[x].state == ZOMBIE {
      var q :| 0 <= q < |s.pcs| && q != p && s.pcs[q].Wake? && s.pcs[q].ch == ProcChan(p) && s.pcs[q].j <= p;
      WakerHolds(s, q);
    }
  }

  /** Every ZOMBIE has a parent that is neither free, nor being made, nor itself a ZOMBIE. */
  lemma ZombieHasParent(ss: seq<State>, xs: seq<Step>, k: nat, x: nat)
    requires Run(ss, xs) && k < |ss| && Shape(ss[k]) && x < |ss[k].procs| && ss[k].procs[x].state == ZOMBIE
    ensures ss[k].procs[x].parent.Some?
    ensures ss[k].procs[ss[k].procs[x].parent.value].state in {SLEEPING, RUNNABLE, RUNNING}
  {
    var s := ss[k];
    RunInv(ss, xs, k);
    assert ParentOk(s, x) && InitOk(s);
    var r := s.procs[x].parent.value;
    assert ProcOk(s, r);
  }

  /** The pid that a step of kwait returns. */
  ghost function Reaps(s: State, x: Step): (r: Option<nat>)
    requires Shape(s)
  {
    match x
    case Thread(c, p, d) =>
      if CanWork(s, c, p, d) && Work(s, p, d).reap && Work(s, p, d).j < |s.procs|
      then Some(s.procs[Work(s, p, d).j].pid) else None
    case _ => None
  }

  lemma {:induction false} ReapedStays(ss: seq<State>, xs: seq<Step>, j: nat, k: nat)
    requires Run(ss, xs) && j <= k < |ss|
    ensures ss[j].reaped <= ss[k].reaped
    decreases k
  {
    if j < k {
      ReapedStays(ss, xs, j, k - 1);
      assert Next(ss[k - 1], xs[k - 1], ss[k]);
    }
  }

  lemma ReapIsNew(s: State, c: nat, p: nat, d: Choice)
    requires Inv(s) && CanWork(s, c, p, d) && Work(s, p, d).reap
    ensures var j := Work(s, p, d).j; j < |s.procs| && s.procs[j].pid !in s.reaped && s.procs[j].state == ZOMBIE
  {
    assert s.pcs[p].WaitTest? && PcOk(|s.procs|, |s.slocks|, s.pcs[p]);
  }

  /** Each exited child is reaped at most once: no two steps of a run return the same pid from kwait. */
  lemma ReapedOnce(ss: seq<State>, xs: seq<Step>, j: nat, k: nat)
    requires Run(ss, xs) && j < k < |xs| && Shape(ss[j]) && Shape(ss[k])
    requires Reaps(ss[j], xs[j]).Some? && Reaps(ss[k], xs[k]).Some?
    ensures Reaps(ss[j], xs[j]) != Reaps(ss[k], xs[k])
  {
    RunInv(ss, xs, k);
    ReapIsNew(ss[k], xs[k].c, xs[k].p, xs[k].d);
    assert Next(ss[j], xs[j], ss[j + 1]);
    assert Reaps(ss[j], xs[j]).value in ss[j + 1].reaped;
    ReapedStays(ss, xs, j + 1, k);
  }
}
