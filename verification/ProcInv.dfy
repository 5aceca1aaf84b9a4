/** What every step of the process machine keeps. */
module ProcInv {
  import opened Common
  import opened ProcModel

  // ------------------------------------------------- locks and scheduling

  /** The CPU recorded in each spin-lock is the one whose code is inside it. */
  ghost predicate LockInv(s: State) {
    && (forall c, l {:trigger l in CpuHolds(s, c)} ::
          0 <= c < |s.cpus| ==> (l in CpuHolds(s, c) <==> l in s.locks && s.locks[l] == c))
    && (forall l {:trigger s.locks[l]} :: l in s.locks ==> s.locks[l] < |s.cpus|)
  }

  ghost predicate AtInv(s: State) {
    forall c, i :: 0 <= c < |s.cpus| && 0 <= i < |s.at| ==> (s.cpus[c].sched == Away(i) <==> s.at[i] == Some(c))
  }

  function CurOf(x: SPC): (r: Option<nat>) {
    match x
    case Scan(_) => None
    case Check(_) => None
    case Chosen(i) => Some(i)
    case Away(i) => Some(i)
    case Back(i) => Some(i)
  }

  /** The process state while its thread has a CPU. */
  function RunState(pc: PC): (r: ProcState) {
    match pc
    case Yield(stage, _) => if stage == 2 then RUNNABLE else RUNNING
    case Sleep(stage, _) => if stage == 3 then SLEEPING else RUNNING
    case ExitRel => ZOMBIE
    case ExitSched => ZOMBIE
    case _ => RUNNING
  }

  /** A thread that has no CPU stopped at a context switch, or has not started. */
  ghost predicate Parked(pc: PC, st: ProcState) {
    match pc
    case Unborn => st == UNUSED
    case Forkret => st == USED || st == RUNNABLE || st == RUNNING
    case Yield(stage, _) => stage == 3 && (st == RUNNABLE || st == RUNNING)
    case Sleep(stage, _) => stage == 4 && (st == SLEEPING || st == RUNNABLE || st == RUNNING)
    case Dead => st == ZOMBIE
    case _ => false
  }

  /** Process `i`, its thread at `pc`, with or without a CPU. */
  ghost predicate Fits(i: nat, on: bool, pc: PC, q: Proc) {
    && (if on then !pc.Unborn? && !pc.Dead? && q.state == RunState(pc) else Parked(pc, q.state))
    && (pc.Sleep? && 3 <= pc.stage <= 4 ==> q.chan == pc.ch)
    && (Base(pc).Sleep? && Base(pc).ch.ProcChan? ==> Base(pc).ch.p == i)
    && (pc.Wake? && pc.stage == 1 ==> pc.j != i)
  }

  ghost predicate ProcOk(s: State, i: nat)
    requires Shape(s) && i < |s.procs|
  {
    Fits(i, s.at[i].Some?, s.pcs[i], s.procs[i])
  }

  ghost predicate CpuOk(s: State, c: nat)
    requires Shape(s) && c < |s.cpus|
  {
    && s.cpus[c].cur == CurOf(s.cpus[c].sched)
    && match s.cpus[c].sched
       case Chosen(i) =>
         s.at[i] == None && s.procs[i].state == RUNNING && (s.pcs[i].Forkret? || s.pcs[i].Yield? || s.pcs[i].Sleep?)
       case Back(i) => s.at[i] == None
       case _ => true
  }

  ghost predicate SchedInv(s: State)
    requires Shape(s)
  {
    && LockInv(s) && AtInv(s)
    && (forall i :: 0 <= i < |s.at| && s.at[i].Some? ==> s.at[i].value < |s.cpus|)
    && (forall i :: 0 <= i < |s.procs| ==> ProcOk(s, i))
    && (forall c :: 0 <= c < |s.cpus| ==> CpuOk(s, c))
  }

  function Base(pc: PC): (r: PC) {
    if pc.Yield? then pc.k else pc
  }

  /** The slot a forking thread has claimed. */
  function Target(pc: PC): (t: Option<nat>) {
    match Base(pc)
    case ForkCopy(np) => Some(np)
    case ForkParent(np) => Some(np)
    case ForkSet(np) => Some(np)
    case ForkLock(np) => Some(np)
    case ForkRun(np) => Some(np)
    case _ => None
  }

  /** A claimed slot stays USED, is nobody else's, and its thread has not started. */
  ghost predicate ForkInv(s: State)
    requires Shape(s)
  {
    && (forall p :: 0 <= p < |s.pcs| && Target(s.pcs[p]).Some? ==>
          var t := Target(s.pcs[p]).value;
          t < |s.procs| && s.procs[t].state == USED && s.pcs[t] == Forkret && s.at[t] == None)
    && (forall p, q :: 0 <= p < q < |s.pcs| && Target(s.pcs[p]).Some? ==> Target(s.pcs[p]) != Target(s.pcs[q]))
  }

  ghost predicate Core(s: State) {
    Shape(s) && SchedInv(s) && ForkInv(s)
  }

  lemma AcquireHeld(n: nat, p: nat, pc: PC, l: Lock)
    requires Wants(n, p, pc) == Some(l)
    ensures HeldBy(p, Acquired(pc)) == HeldBy(p, pc) + {l}
  {
  }

  /** A thread runs on one CPU. */
  lemma OneCpu(s: State, c: nat, p: nat)
    requires Core(s) && Runs(s, c, p)
    ensures p < |s.at| && s.at[p] == Some(c)
    ensures forall e :: 0 <= e < |s.cpus| && e != c ==> s.cpus[e].sched != Away(p)
  {
  }

  /** Whoever else holds p->lock finds the process RUNNING or without a CPU. */
  lemma LockedOut(s: State, c: nat, i: nat)
    requires Core(s) && c < |s.cpus| && i < |s.procs| && PLock(i) in CpuHolds(s, c) && s.cpus[c].sched != Away(i)
    ensures s.at[i] == None || s.procs[i].state == RUNNING
  {
    if s.at[i].Some? {
      var e := s.at[i].value;
      assert s.cpus[e].sched == Away(i) && ProcOk(s, i);
      var h := CpuHolds(s, e);
      assert h == HeldBy(i, s.pcs[i]);
      assert s.procs[i].state != RUNNING ==> PLock(i) in h;
    }
  }

  /** Only one CPU is inside a lock. */
  lemma OneHolder(s: State, c: nat, e: nat, l: Lock)
    requires Core(s) && c < |s.cpus| && e < |s.cpus| && l in CpuHolds(s, c) && l in CpuHolds(s, e)
    ensures c == e
  {
  }

  lemma LockGained(s: State, s': State, c: nat, l: Lock)
    requires LockInv(s) && |s'.cpus| == |s.cpus| && c < |s.cpus| && l !in s.locks && s'.locks == s.locks[l := c]
    requires forall e :: 0 <= e < |s.cpus| && e != c ==> CpuHolds(s', e) == CpuHolds(s, e)
    requires CpuHolds(s', c) == CpuHolds(s, c) + {l}
    ensures LockInv(s')
  {
    forall e, k | 0 <= e < |s.cpus| ensures k in CpuHolds(s', e) <==> k in s'.locks && s'.locks[k] == e {
      assert k in CpuHolds(s, e) <==> k in s.locks && s.locks[k] == e;
    }
  }

  lemma LockDropped(s: State, s': State, c: nat, l: Lock)
    requires LockInv(s) && |s'.cpus| == |s.cpus| && c < |s.cpus| && l in CpuHolds(s, c) && s'.locks == s.locks - {l}
    requires forall e :: 0 <= e < |s.cpus| && e != c ==> CpuHolds(s', e) == CpuHolds(s, e)
    requires CpuHolds(s', c) == CpuHolds(s, c) - {l}
    ensures LockInv(s')
  {
  }

  lemma LockSame(s: State, s': State)
    requires LockInv(s) && |s'.cpus| == |s.cpus| && s'.locks == s.locks
    requires forall e :: 0 <= e < |s.cpus| ==> CpuHolds(s', e) == CpuHolds(s, e)
    ensures LockInv(s')
  {
  }

  // ----------------------------------------------------- Core: acquire steps

  lemma AcquireLocks(s: State, c: nat, p: nat, l: Lock)
    requires Core(s) && CanAcquire(s, c, p, l)
    ensures LockInv(DoAcquireStep(s, c, p, l))
  {
    var s' := DoAcquireStep(s, c, p, l);
    AcquireHeld(|s.procs|, p, s.pcs[p], l);
    OneCpu(s, c, p);
    forall e | 0 <= e < |s.cpus| && e != c ensures CpuHolds(s', e) == CpuHolds(s, e) {}
    LockGained(s, s', c, l);
  }

  lemma AcquireShape(s: State, c: nat, p: nat, l: Lock)
    requires Core(s) && CanAcquire(s, c, p, l)
    ensures Shape(DoAcquireStep(s, c, p, l))
  {
  }

  lemma AcquireProcs(s: State, c: nat, p: nat, l: Lock)
    requires Core(s) && CanAcquire(s, c, p, l) && Shape(DoAcquireStep(s, c, p, l))
    ensures forall i :: 0 <= i < |s.procs| ==> ProcOk(DoAcquireStep(s, c, p, l), i)
  {
    var s' := DoAcquireStep(s, c, p, l);
    OneCpu(s, c, p);
    forall i | 0 <= i < |s.procs| ensures ProcOk(s', i) {
      assert ProcOk(s, i);
    }
  }

  lemma AcquireRest(s: State, c: nat, p: nat, l: Lock)
    requires Core(s) && CanAcquire(s, c, p, l) && Shape(DoAcquireStep(s, c, p, l))
    ensures AtInv(DoAcquireStep(s, c, p, l)) && ForkInv(DoAcquireStep(s, c, p, l))
  {
    var s' := DoAcquireStep(s, c, p, l);
    OneCpu(s, c, p);
    assert Target(s'.pcs[p]) == Target(s.pcs[p]);
  }

  lemma AcquireCpu(s: State, c: nat, p: nat, l: Lock, e: nat)
    requires Core(s) && CanAcquire(s, c, p, l) && Shape(DoAcquireStep(s, c, p, l)) && e < |s.cpus|
    ensures CpuOk(DoAcquireStep(s, c, p, l), e)
  {
    OneCpu(s, c, p);
    assert CpuOk(s, e);
  }

  lemma AcquireCore(s: State, c: nat, p: nat, l: Lock)
    requires Core(s) && CanAcquire(s, c, p, l)
    ensures Core(DoAcquireStep(s, c, p, l))
  {
    AcquireShape(s, c, p, l);
    AcquireLocks(s, c, p, l);
    AcquireProcs(s, c, p, l);
    AcquireRest(s, c, p, l);
    forall e | 0 <= e < |s.cpus| ensures CpuOk(DoAcquireStep(s, c, p, l), e) {
      AcquireCpu(s, c, p, l, e);
    }
  }

  // --------------------------------------------------- Core: scheduler steps

  lemma ScheduleShape(s: State, c: nat)
    requires Core(s) && CanSchedule(s, c)
    ensures Shape(Schedule(s, c)) && LockInv(Schedule(s, c))
  {
    var s' := Schedule(s, c);
    var x := s.cpus[c].sched;
    forall e | 0 <= e < |s.cpus| && e != c ensures CpuHolds(s', e) == CpuHolds(s, e) {}
    match x
    case Scan(i) => LockGained(s, s', c, PLock(i));
    case Check(i) => if s.procs[i].state == RUNNABLE { LockSame(s, s'); } else { LockDropped(s, s', c, PLock(i)); }
    case Chosen(i) =>
      assert CpuOk(s, c) && ProcOk(s, i);
      LockSame(s, s');
    case Back(i) => LockDropped(s, s', c, PLock(i));
  }

  lemma ScheduleProcs(s: State, c: nat)
    requires Core(s) && CanSchedule(s, c) && Shape(Schedule(s, c))
    ensures forall j :: 0 <= j < |s.procs| ==> ProcOk(Schedule(s, c), j)
    ensures AtInv(Schedule(s, c))
  {
    var s' := Schedule(s, c);
    var i := s.cpus[c].sched.i;
    assert ProcOk(s, i) && CpuOk(s, c);
    if !s.cpus[c].sched.Scan? {
      LockedOut(s, c, i);
    }
    forall j | 0 <= j < |s.procs| ensures ProcOk(s', j) {
      assert ProcOk(s, j);
    }
  }

  lemma ScheduleCpus(s: State, c: nat)
    requires Core(s) && CanSchedule(s, c) && Shape(Schedule(s, c))
    ensures forall e :: 0 <= e < |s.cpus| ==> CpuOk(Schedule(s, c), e)
  {
    var s' := Schedule(s, c);
    var i := s.cpus[c].sched.i;
    assert ProcOk(s, i) && CpuOk(s, c);
    if !s.cpus[c].sched.Scan? {
      LockedOut(s, c, i);
    }
    forall e | 0 <= e < |s.cpus| ensures CpuOk(s', e) {
      assert CpuOk(s, e);
      if e != c && !s.cpus[c].sched.Scan? && PLock(i) in CpuHolds(s, e) {
        OneHolder(s, c, e, PLock(i));
      }
    }
  }

  lemma ScheduleCore(s: State, c: nat)
    requires Core(s) && CanSchedule(s, c)
    ensures Core(Schedule(s, c))
  {
    ScheduleShape(s, c);
    ScheduleProcs(s, c);
    ScheduleCpus(s, c);
    var s' := Schedule(s, c);
    var i := s.cpus[c].sched.i;
    assert CpuOk(s, c) && ProcOk(s, i);
  }

  // ------------------------------------------------------ Core: thread steps

  ghost predicate InRange(s: State, p: nat, e: Effect)
    requires Shape(s) && p < |s.procs|
  {
    && e.j < |s.procs| && PcOk(|s.procs|, |s.slocks|, e.pc)
    && (e.q.parent.Some? ==> e.q.parent.value < |s.procs|)
    && (e.thread.Some? ==> e.j != p && s.at[e.j] == None && PcOk(|s.procs|, |s.slocks|, e.thread.value))
    && (e.slock.Some? ==> e.l < |s.slocks|)
  }

  /** The locks the code holds afterwards are those it held, less the one it drops. */
  ghost predicate DropsOk(s: State, p: nat, e: Effect)
    requires Shape(s) && p < |s.procs|
  {
    var h := HeldBy(p, s.pcs[p]);
    if e.swtch then e.drop == None && h == {PLock(p)}
    else if e.drop.Some? then e.drop.value in h && HeldBy(p, e.pc) == h - {e.drop.value}
    else HeldBy(p, e.pc) == h
  }

  /** The records it leaves fit their threads; another's state changes only under that p->lock. */
  ghost predicate RecordsOk(s: State, p: nat, e: Effect)
    requires Shape(s) && p < |s.procs| && InRange(s, p, e)
  {
    && Fits(p, !e.swtch, e.pc, if e.j == p then e.q else s.procs[p])
    && (e.j != p ==>
          && Fits(e.j, s.at[e.j].Some?, if e.thread.Some? then e.thread.value else s.pcs[e.j], e.q)
          && (e.q.state != s.procs[e.j].state || e.thread.Some? ==> PLock(e.j) in HeldBy(p, s.pcs[p])))
  }

  /** A slot is claimed when UNUSED and given up only by its claimer. */
  ghost predicate ClaimsOk(s: State, p: nat, e: Effect)
    requires Shape(s) && p < |s.procs| && InRange(s, p, e)
  {
    && (|| Target(e.pc) == None
        || Target(e.pc) == Target(s.pcs[p])
        || (Target(e.pc) == Some(e.j) && s.procs[e.j].state == UNUSED && e.q.state == USED
            && e.thread == Some(Forkret)))
    && (e.j != p && s.procs[e.j].state == USED && (e.q.state != USED || e.thread.Some?) ==>
          Target(s.pcs[p]) == Some(e.j) && Target(e.pc) == None)
    && (e.thread.Some? ==> Target(e.thread.value) == None)
  }

  lemma PerformLocks(s: State, c: nat, p: nat, e: Effect)
    requires Core(s) && Runs(s, c, p) && p < |s.procs| && InRange(s, p, e) && DropsOk(s, p, e)
    ensures Shape(Perform(s, c, p, e)) && LockInv(Perform(s, c, p, e)) && AtInv(Perform(s, c, p, e))
  {
    var s' := Perform(s, c, p, e);
    OneCpu(s, c, p);
    forall k | 0 <= k < |s.cpus| && k != c ensures CpuHolds(s', k) == CpuHolds(s, k) {
      assert e.thread.Some? ==> s.cpus[k].sched != Away(e.j);
    }
    if e.drop.Some? {
      LockDropped(s, s', c, e.drop.value);
    } else {
      LockSame(s, s');
    }
  }

  lemma PerformProcs(s: State, c: nat, p: nat, e: Effect)
    requires Core(s) && Runs(s, c, p) && p < |s.procs| && InRange(s, p, e) && RecordsOk(s, p, e)
    requires Shape(Perform(s, c, p, e))
    ensures forall i :: 0 <= i < |s.procs| ==> ProcOk(Perform(s, c, p, e), i)
  {
    var s' := Perform(s, c, p, e);
    OneCpu(s, c, p);
    forall i | 0 <= i < |s.procs| ensures ProcOk(s', i) {
      assert ProcOk(s, i);
    }
  }

  lemma PerformCpus(s: State, c: nat, p: nat, e: Effect)
    requires Core(s) && Runs(s, c, p) && p < |s.procs| && InRange(s, p, e) && RecordsOk(s, p, e)
    requires Shape(Perform(s, c, p, e))
    ensures forall k :: 0 <= k < |s.cpus| ==> CpuOk(Perform(s, c, p, e), k)
  {
    var s' := Perform(s, c, p, e);
    OneCpu(s, c, p);
    forall k | 0 <= k < |s.cpus| ensures CpuOk(s', k) {
      assert CpuOk(s, k);
      if k != c && e.j != p && PLock(e.j) in CpuHolds(s, k) && PLock(e.j) in CpuHolds(s, c) {
        OneHolder(s, c, k, PLock(e.j));
      }
    }
  }

  lemma PerformTargets(s: State, c: nat, p: nat, e: Effect, x: nat)
    requires Core(s) && Runs(s, c, p) && p < |s.procs| && InRange(s, p, e) && ClaimsOk(s, p, e)
    requires x < |s.pcs| && Target(Perform(s, c, p, e).pcs[x]).Some?
    ensures var s', t := Perform(s, c, p, e), Target(Perform(s, c, p, e).pcs[x]).value;
            t < |s.procs| && s'.procs[t].state == USED && s'.pcs[t] == Forkret && s'.at[t] == None
  {
    OneCpu(s, c, p);
  }

  lemma PerformUnique(s: State, c: nat, p: nat, e: Effect, x: nat, y: nat)
    requires Core(s) && Runs(s, c, p) && p < |s.procs| && InRange(s, p, e) && ClaimsOk(s, p, e)
    requires x < y < |s.pcs| && Target(Perform(s, c, p, e).pcs[x]).Some?
    ensures Target(Perform(s, c, p, e).pcs[x]) != Target(Perform(s, c, p, e).pcs[y])
  {
  }

  lemma PerformForks(s: State, c: nat, p: nat, e: Effect)
    requires Core(s) && Runs(s, c, p) && p < |s.procs| && InRange(s, p, e) && ClaimsOk(s, p, e)
    requires Shape(Perform(s, c, p, e))
    ensures ForkInv(Perform(s, c, p, e))
  {
    var s' := Perform(s, c, p, e);
    forall x | 0 <= x < |s.pcs| && Target(s'.pcs[x]).Some?
      ensures var t := Target(s'.pcs[x]).value;
              t < |s.procs| && s'.procs[t].state == USED && s'.pcs[t] == Forkret && s'.at[t] == None
    {
      PerformTargets(s, c, p, e, x);
    }
    forall x, y | 0 <= x < y < |s.pcs| && Target(s'.pcs[x]).Some? ensures Target(s'.pcs[x]) != Target(s'.pcs[y]) {
      PerformUnique(s, c, p, e, x, y);
    }
  }

  lemma PerformCore(s: State, c: nat, p: nat, e: Effect)
    requires Core(s) && Runs(s, c, p) && p < |s.procs|
    requires InRange(s, p, e) && DropsOk(s, p, e) && RecordsOk(s, p, e) && ClaimsOk(s, p, e)
    ensures Core(Perform(s, c, p, e))
  {
    PerformLocks(s, c, p, e);
    PerformProcs(s, c, p, e);
    PerformCpus(s, c, p, e);
    PerformForks(s, c, p, e);
  }

  /** The other process whose p->lock a thread holds. */
  function Touches(pc: PC): (r: Option<nat>) {
    match pc
    case Wake(stage, _, j, _) => if stage == 1 then Some(j) else None
    case ForkTest(i) => Some(i)
    case ForkCopy(np) => Some(np)
    case ForkRun(np) => Some(np)
    case WaitTest(i) => Some(i)
    case KillTest(_, i) => Some(i)
    case _ => None
  }

  /** What is known of that process, because its thread cannot be running under that lock. */
  lemma TouchedIdle(s: State, c: nat, p: nat)
    requires Core(s) && Runs(s, c, p) && p < |s.procs| && Touches(s.pcs[p]).Some? && Touches(s.pcs[p]).value != p
    ensures var i := Touches(s.pcs[p]).value;
            i < |s.procs| && (s.at[i] == None || s.procs[i].state == RUNNING) && ProcOk(s, i)
  {
    var i := Touches(s.pcs[p]).value;
    assert PLock(i) in CpuHolds(s, c);
    LockedOut(s, c, i);
  }

  /** The facts a step is checked against. */
  ghost predicate Facts(s: State, c: nat, p: nat)
    requires Shape(s) && p < |s.procs|
  {
    && s.at[p] == Some(c) && PcOk(|s.procs|, |s.slocks|, s.pcs[p]) && ProcOk(s, p)
    && (Touches(s.pcs[p]).Some? && Touches(s.pcs[p]).value != p ==>
          var i := Touches(s.pcs[p]).value;
          i < |s.procs| && (s.at[i] == None || s.procs[i].state == RUNNING))
    && (Target(s.pcs[p]).Some? ==>
          var t := Target(s.pcs[p]).value;
          t < |s.procs| && s.procs[t].state == USED && s.pcs[t] == Forkret && s.at[t] == None)
  }

  lemma WorkFacts(s: State, c: nat, p: nat)
    requires Core(s) && Runs(s, c, p) && p < |s.procs|
    ensures Facts(s, c, p)
  {
    OneCpu(s, c, p);
    assert ProcOk(s, p);
    var t := Touches(s.pcs[p]);
    if t.Some? && t.value != p {
      TouchedIdle(s, c, p);
    }
  }

  /** A step of the source is a good effect. */
  ghost predicate GoodWork(s: State, p: nat, d: Choice)
    requires Shape(s) && p < |s.procs|
  {
    var e := Work(s, p, d);
    && InRange(s, p, e) && DropsOk(s, p, e) && ClaimsOk(s, p, e)
    && (ProcOk(s, e.j) ==> RecordsOk(s, p, e))
  }

  /** The part of the kernel a step belongs to. */
  datatype Part =
    | Divert                       // into a system call or a yield
    | Yields | Sleeps | Wakes | Forks | Starts | Reparents | Exits | Scans | Waits | Reaps | Locks | Kills
    | Nowhere

  function PartOf(pc: PC, d: Choice): (k: Part) {
    if !d.Go? && !d.Fail? then Divert
    else
      match pc
      case Forkret | Yield(_, _) => Yields
      case Sleep(_, _) => Sleeps
      case Wake(_, _, _, _) => Wakes
      case ForkScan(_) | ForkTest(_) | ForkCopy(_) => Forks
      case ForkSet(_) | ForkRun(_) => Starts
      case Reparent(_) => Reparents
      case ExitZombie | ExitRel | ExitSched => Exits
      case WaitScan(_, _) => Scans
      case WaitReaped(_, _) | WaitKilled | WaitRel(_) => Waits
      case WaitTest(_) => Reaps
      case AcqTest(_) | AcqRel(_) | RelSet(_) | RelDone(_) => Locks
      case KillScan(_, _) | KillTest(_, _) => Kills
      case _ => Nowhere
  }

  /** Thread `p` can take step `d`, which belongs to part `k`. */
  ghost predicate StepIn(s: State, c: nat, p: nat, d: Choice, k: Part) {
    Shape(s) && CanWork(s, c, p, d) && Facts(s, c, p) && PartOf(s.pcs[p], d) == k
  }

  lemma DivertGood(s: State, c: nat, p: nat, d: Choice)
    requires StepIn(s, c, p, d, Divert)
    ensures GoodWork(s, p, d)
  {
  }

  lemma YieldGood(s: State, c: nat, p: nat, d: Choice)
    requires StepIn(s, c, p, d, Yields)
    ensures GoodWork(s, p, d)
  {
  }

  lemma SleepGood(s: State, c: nat, p: nat, d: Choice)
    requires StepIn(s, c, p, d, Sleeps)
    ensures GoodWork(s, p, d)
  {
  }

  lemma WakeGood(s: State, c: nat, p: nat, d: Choice)
    requires StepIn(s, c, p, d, Wakes)
    ensures GoodWork(s, p, d)
  {
  }

  lemma ForkGood(s: State, c: nat, p: nat, d: Choice)
    requires StepIn(s, c, p, d, Forks)
    ensures GoodWork(s, p, d)
  {
  }

  lemma StartGood(s: State, c: nat, p: nat, d: Choice)
    requires StepIn(s, c, p, d, Starts)
    ensures GoodWork(s, p, d)
  {
  }

  lemma ReparentGood(s: State, c: nat, p: nat, d: Choice)
    requires StepIn(s, c, p, d, Reparents)
    ensures GoodWork(s, p, d)
  {
  }

  lemma ExitGood(s: State, c: nat, p: nat, d: Choice)
    requires StepIn(s, c, p, d, Exits)
    ensures GoodWork(s, p, d)
  {
  }

  lemma ScanGood(s: State, c: nat, p: nat, d: Choice)
    requires StepIn(s, c, p, d, Scans)
    ensures GoodWork(s, p, d)
  {
  }

  lemma WaitGood(s: State, c: nat, p: nat, d: Choice)
    requires StepIn(s, c, p, d, Waits)
    ensures GoodWork(s, p, d)
  {
  }

  lemma ReapGood(s: State, c: nat, p: nat, d: Choice)
    requires StepIn(s, c, p, d, Reaps)
    ensures GoodWork(s, p, d)
  {
  }

  lemma LockGood(s: State, c: nat, p: nat, d: Choice)
    requires StepIn(s, c, p, d, Locks)
    ensures GoodWork(s, p, d)
  {
  }

  lemma KillGood(s: State, c: nat, p: nat, d: Choice)
    requires StepIn(s, c, p, d, Kills)
    ensures GoodWork(s, p, d)
  {
  }

  lemma WorkGood(s: State, c: nat, p: nat, d: Choice)
    requires Shape(s) && CanWork(s, c, p, d) && Facts(s, c, p)
    ensures GoodWork(s, p, d)
  {
    match PartOf(s.pcs[p], d)
    case Divert => DivertGood(s, c, p, d);
    case Yields => YieldGood(s, c, p, d);
    case Sleeps => SleepGood(s, c, p, d);
    case Wakes => WakeGood(s, c, p, d);
    case Forks => ForkGood(s, c, p, d);
    case Starts => StartGood(s, c, p, d);
    case Reparents => ReparentGood(s, c, p, d);
    case Exits => ExitGood(s, c, p, d);
    case Scans => ScanGood(s, c, p, d);
    case Waits => WaitGood(s, c, p, d);
    case Reaps => ReapGood(s, c, p, d);
    case Locks => LockGood(s, c, p, d);
    case Kills => KillGood(s, c, p, d);
    case Nowhere => assert false;
  }

  lemma WorkCore(s: State, c: nat, p: nat, d: Choice)
    requires Core(s) && CanWork(s, c, p, d)
    ensures InRange(s, p, Work(s, p, d)) && Core(Perform(s, c, p, Work(s, p, d)))
  {
    WorkFacts(s, c, p);
    WorkGood(s, c, p, d);
    assert ProcOk(s, Work(s, p, d).j);
    PerformCore(s, c, p, Work(s, p, d));
  }
}
