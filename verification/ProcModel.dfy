/**
 * Processes, the scheduler, sleep/wakeup, exit/wait and sleep-locks
 * (kernel/proc.c, kernel/sleeplock.c) as one machine over all interleavings.
 *
 * Each CPU runs its scheduler loop or the kernel thread of one process; each thread
 * has a program counter. A step is one spin-lock acquire, or the work up to and
 * including the next release or context switch, so any other CPU may move in between.
 */
module ProcModel {
  import opened Common
  /** proc[0] becomes initproc. */
  const INIT: nat := 0

  datatype ProcState = UNUSED | USED | SLEEPING | RUNNABLE | RUNNING | ZOMBIE

  /** What a process may sleep on: a process (kwait) or a sleep-lock. */
  datatype Chan = NoChan | ProcChan(p: nat) | LockChan(l: nat)

  /** Spin-locks: p->lock, wait_lock, and the lk->lk inside a sleep-lock. */
  datatype Lock = PLock(p: nat) | WaitLock | Inner(l: nat)

  datatype Proc = Proc(state: ProcState, chan: Chan, killed: bool, pid: nat, parent: Option<nat>)

  datatype SLock = SLock(locked: bool, owner: nat)

  /** Where wakeup returns to. */
  datatype Ret = RetReparent(i: nat) | RetExit | RetRelease(l: nat)

  /** What kwait is going to return: -1 for want of a child, because killed, or because copyout failed; or a pid. */
  datatype Outcome = NoChild | WasKilled | NoCopy | Child(pid: nat)

  /** Program counters of a kernel thread. Numbered stages follow the source top to bottom. */
  datatype PC =
    | Unborn                                      // no thread: the slot is UNUSED
    | Forkret                                     // allocproc's context; holds p->lock when it runs
    | Idle                                        // user space, or kernel code holding no spin-lock
    | Yield(stage: nat, k: PC)                    // yield, by a timer interrupt at k
    | Sleep(stage: nat, ch: Chan)
    | Wake(stage: nat, ch: Chan, j: nat, ret: Ret)
    | ForkScan(i: nat) | ForkTest(i: nat) | ForkCopy(np: nat)
    | ForkParent(np: nat) | ForkSet(np: nat) | ForkLock(np: nat) | ForkRun(np: nat)
    | ExitStart | Reparent(i: nat) | ExitLock | ExitZombie | ExitRel | ExitSched | Dead
    | WaitStart | WaitScan(i: nat, kids: bool) | WaitChild(i: nat) | WaitTest(i: nat)
    | WaitReaped(i: nat, r: Outcome) | WaitAsk | WaitKilled | WaitRel(r: Outcome)
    | KillScan(pid: nat, i: nat) | KillTest(pid: nat, i: nat)
    | AcqStart(l: nat) | AcqTest(l: nat) | AcqRel(l: nat)
    | RelStart(l: nat) | RelSet(l: nat) | RelDone(l: nat)

  /** Program counters of scheduler(). */
  datatype SPC = Scan(i: nat) | Check(i: nat) | Chosen(i: nat) | Away(i: nat) | Back(i: nat)

  datatype Cpu = Cpu(cur: Option<nat>, sched: SPC)

  datatype State = State(
    procs: seq<Proc>,
    pcs: seq<PC>,
    cpus: seq<Cpu>,
    locks: map<Lock, nat>,      // held spin-locks and the CPU holding each
    slocks: seq<SLock>,
    nextpid: nat,
    // history
    at: seq<Option<nat>>,       // the CPU running on each kernel stack
    inside: seq<set<nat>>,      // who has returned from acquiresleep and not yet called releasesleep
    reaped: set<nat>)           // pids handed out by kwait

  /** What the running code or its environment decides. */
  datatype Choice =
    | Go | Fail                 // Fail: out of memory in fork, copyout fails in wait
    | Preempt
    | DoFork | DoExit | DoWait | DoKill(pid: nat) | DoAcquire(l: nat) | DoRelease(l: nat)

  /** The condition lock that goes with a channel. */
  function LkOf(ch: Chan): (l: Lock) {
    match ch
    case LockChan(l) => Inner(l)
    case _ => WaitLock
  }

  /** Spin-locks a thread holds, by its program counter. */
  function HeldBy(p: nat, pc: PC): (ls: set<Lock>) {
    match pc
    case Forkret => {PLock(p)}
    case Yield(stage, _) => if stage == 0 then {} else {PLock(p)}
    case Sleep(stage, ch) =>
      if stage == 0 then {LkOf(ch)}
      else if stage == 1 then {LkOf(ch), PLock(p)}
      else if stage <= 4 then {PLock(p)}
      else {}
    case Wake(stage, ch, j, _) => if stage == 0 then {LkOf(ch)} else {LkOf(ch), PLock(j)}
    case ForkTest(i) => {PLock(i)}
    case ForkCopy(np) => {PLock(np)}
    case ForkSet(_) => {WaitLock}
    case ForkRun(np) => {PLock(np)}
    case Reparent(_) => {WaitLock}
    case ExitLock => {WaitLock}
    case ExitZombie => {WaitLock, PLock(p)}
    case ExitRel => {WaitLock, PLock(p)}
    case ExitSched => {PLock(p)}
    case WaitScan(_, _) => {WaitLock}
    case WaitChild(_) => {WaitLock}
    case WaitTest(i) => {WaitLock, PLock(i)}
    case WaitReaped(i, _) => {WaitLock, PLock(i)}
    case WaitAsk => {WaitLock}
    case WaitKilled => {WaitLock, PLock(p)}
    case WaitRel(_) => {WaitLock}
    case KillTest(_, i) => {PLock(i)}
    case AcqTest(l) => {Inner(l)}
    case AcqRel(l) => {Inner(l)}
    case RelSet(l) => {Inner(l)}
    case RelDone(l) => {Inner(l)}
    case _ => {}
  }

  /** No spin-lock is held, so interrupts are on and the timer may force a yield. */
  predicate Preemptible(pc: PC) {
    match pc
    case Idle => true
    case Sleep(stage, _) => stage == 5
    case ForkScan(_) => true
    case ForkParent(_) => true
    case ForkLock(_) => true
    case ExitStart => true
    case WaitStart => true
    case KillScan(_, _) => true
    case AcqStart(_) => true
    case RelStart(_) => true
    case _ => false
  }

  /** Spin-locks CPU `c` holds: its scheduler's, or those of the thread it runs. */
  function CpuHolds(s: State, c: nat): (ls: set<Lock>)
    requires c < |s.cpus|
  {
    match s.cpus[c].sched
    case Scan(_) => {}
    case Check(i) => {PLock(i)}
    case Chosen(i) => {PLock(i)}
    case Back(i) => {PLock(i)}
    case Away(p) => if p < |s.pcs| then HeldBy(p, s.pcs[p]) else {}
  }

  // ----------------------------------------------------------- transitions

  function AfterSleep(ch: Chan): (pc: PC) {
    match ch
    case LockChan(l) => AcqTest(l)
    case _ => WaitScan(0, false)
  }

  function AfterWake(ret: Ret): (pc: PC) {
    match ret
    case RetReparent(i) => Reparent(i)
    case RetExit => ExitLock
    case RetRelease(l) => RelDone(l)
  }

  /** The lock a thread is about to acquire, if its next step is an acquire. */
  function Wants(n: nat, p: nat, pc: PC): (l: Option<Lock>) {
    match pc
    case Yield(stage, _) => if stage == 0 then Some(PLock(p)) else None
    case Sleep(stage, ch) => if stage == 0 then Some(PLock(p)) else if stage == 5 then Some(LkOf(ch)) else None
    case Wake(stage, _, j, _) => if stage == 0 && j < n && j != p then Some(PLock(j)) else None
    case ForkScan(i) => if i < n then Some(PLock(i)) else None
    case ForkParent(_) => Some(WaitLock)
    case ForkLock(np) => Some(PLock(np))
    case ExitStart => Some(WaitLock)
    case ExitLock => Some(PLock(p))
    case WaitStart => Some(WaitLock)
    case WaitChild(i) => Some(PLock(i))
    case WaitAsk => Some(PLock(p))
    case KillScan(_, i) => if i < n then Some(PLock(i)) else None
    case AcqStart(l) => Some(Inner(l))
    case RelStart(l) => Some(Inner(l))
    case _ => None
  }

  /** Where the thread is once it has the lock it wanted. */
  function Acquired(pc: PC): (pc': PC) {
    match pc
    case Yield(_, k) => Yield(1, k)
    case Sleep(stage, ch) => if stage == 0 then Sleep(1, ch) else AfterSleep(ch)
    case Wake(_, ch, j, ret) => Wake(1, ch, j, ret)
    case ForkScan(i) => ForkTest(i)
    case ForkParent(np) => ForkSet(np)
    case ForkLock(np) => ForkRun(np)
    case ExitStart => Reparent(0)
    case ExitLock => ExitZombie
    case WaitStart => WaitScan(0, false)
    case WaitChild(i) => WaitTest(i)
    case WaitAsk => WaitKilled
    case KillScan(pid, i) => KillTest(pid, i)
    case AcqStart(l) => AcqTest(l)
    case RelStart(l) => RelSet(l)
    case _ => pc
  }

  /** Indices in range, for `n` processes and `m` sleep-locks. */
  ghost predicate PcOk(n: nat, m: nat, pc: PC) {
    match pc
    case Yield(stage, k) => stage <= 3 && Preemptible(k) && PcOk(n, m, k)
    case Sleep(stage, ch) => stage <= 5 && ChanOk(n, m, ch)
    case Wake(stage, ch, j, ret) =>
      stage <= 1 && ChanOk(n, m, ch) && (if stage == 0 then j <= n else j < n) && RetOk(n, ch, ret)
    case ForkScan(i) => i <= n
    case ForkTest(i) => i < n
    case ForkCopy(np) => np < n
    case ForkParent(np) => np < n
    case ForkSet(np) => np < n
    case ForkLock(np) => np < n
    case ForkRun(np) => np < n
    case Reparent(i) => i <= n
    case WaitScan(i, _) => i <= n
    case WaitChild(i) => i < n
    case WaitTest(i) => i < n
    case WaitReaped(i, _) => i < n
    case KillScan(_, i) => i <= n
    case KillTest(_, i) => i < n
    case AcqStart(l) => l < m
    case AcqTest(l) => l < m
    case AcqRel(l) => l < m
    case RelStart(l) => l < m
    case RelSet(l) => l < m
    case RelDone(l) => l < m
    case _ => true
  }

  /** Each wakeup is on the channel its caller means. */
  ghost predicate RetOk(n: nat, ch: Chan, ret: Ret) {
    match ret
    case RetReparent(i) => i <= n && ch == ProcChan(INIT)
    case RetExit => ch.ProcChan?
    case RetRelease(l) => ch == LockChan(l)
  }

  ghost predicate ChanOk(n: nat, m: nat, ch: Chan) {
    match ch
    case NoChan => false
    case ProcChan(p) => p < n
    case LockChan(l) => l < m
  }

  ghost predicate Shape(s: State) {
    && INIT < |s.procs| == |s.pcs| == |s.at|
    && |s.inside| == |s.slocks|
    && (forall p :: 0 <= p < |s.pcs| ==> PcOk(|s.procs|, |s.slocks|, s.pcs[p]))
    && (forall c :: 0 <= c < |s.cpus| ==> s.cpus[c].sched.i < |s.procs|)
    && (forall p :: 0 <= p < |s.procs| && s.procs[p].parent.Some? ==> s.procs[p].parent.value < |s.procs|)
  }

  /** CPU `c` runs the kernel thread of `p`. */
  ghost predicate Runs(s: State, c: nat, p: nat) {
    c < |s.cpus| && s.cpus[c].sched == Away(p)
  }

  /** A thread step that acquires a spin-lock: it waits until the lock is free. */
  ghost predicate CanAcquire(s: State, c: nat, p: nat, l: Lock)
    requires Shape(s)
  {
    Runs(s, c, p) && p < |s.pcs| && Wants(|s.procs|, p, s.pcs[p]) == Some(l) && l !in s.locks
  }

  ghost function DoAcquireStep(s: State, c: nat, p: nat, l: Lock): (s': State)
    requires Shape(s) && CanAcquire(s, c, p, l)
  {
    s.(pcs := s.pcs[p := Acquired(s.pcs[p])], locks := s.locks[l := c])
  }

  /** A thread step that is not an acquire. */
  ghost predicate CanWork(s: State, c: nat, p: nat, d: Choice)
    requires Shape(s)
  {
    && Runs(s, c, p) && p < |s.pcs|
    && var pc := s.pcs[p];
       match d
       case Go => Wants(|s.procs|, p, pc) == None && !pc.Idle? && !pc.Unborn? && !pc.Dead?
       case Fail => pc.ForkCopy? || (pc.WaitTest? && s.procs[pc.i].state == ZOMBIE)
       case Preempt => Preemptible(pc)
       case DoExit => pc.Idle? && p != INIT
       case DoAcquire(l) => pc.Idle? && l < |s.slocks|
       case DoRelease(l) => pc.Idle? && l < |s.slocks| && p in s.inside[l]
       case _ => pc.Idle?
  }

  /** What one thread step does. */
  datatype Effect = Effect(
    pc: PC,                    // where the thread goes on
    drop: Option<Lock>,        // the spin-lock it releases
    swtch: bool,               // it switches to the scheduler
    j: nat, q: Proc,           // the process record it writes
    thread: Option<PC>,        // what becomes of the kernel thread of process j, when the step creates or frees it
    l: nat, slock: Option<SLock>, ins: set<nat>,   // the sleep-lock it writes
    newpid: bool,              // allocpid
    reap: bool)                // kwait returns the pid of process j

  ghost function Perform(s: State, c: nat, p: nat, e: Effect): (s': State)
    requires c < |s.cpus| && p < |s.procs| == |s.pcs| == |s.at| && e.j < |s.procs|
    requires |s.inside| == |s.slocks| && (e.slock.Some? ==> e.l < |s.slocks|)
  {
    State(
      s.procs[e.j := e.q],
      (if e.thread.Some? then s.pcs[e.j := e.thread.value] else s.pcs)[p := e.pc],
      if e.swtch then s.cpus[c := s.cpus[c].(sched := Back(p))] else s.cpus,
      if e.drop.Some? then s.locks - {e.drop.value} else s.locks,
      if e.slock.Some? then s.slocks[e.l := e.slock.value] else s.slocks,
      if e.newpid then s.nextpid + 1 else s.nextpid,
      if e.swtch then s.at[p := None] else s.at,
      if e.slock.Some? then s.inside[e.l := e.ins] else s.inside,
      if e.reap then s.reaped + {s.procs[e.j].pid} else s.reaped)
  }

  /** Go on at `k` and do nothing else. */
  function Goto(p: nat, me: Proc, k: PC): (e: Effect) {
    Effect(k, None, false, p, me, None, 0, None, {}, false, false)
  }

  /** What freeproc leaves. */
  const Freed: Proc := Proc(UNUSED, NoChan, false, 0, None)

  /** The step of thread `p`, read off the source at its program counter. */
  ghost function Work(s: State, p: nat, d: Choice): (e: Effect)
    requires Shape(s) && p < |s.procs|
  {
    var n := |s.procs|;
    var me := s.procs[p];
    var pc := s.pcs[p];
    match d
    case Preempt => Goto(p, me, Yield(0, pc))
    case DoFork => Goto(p, me, ForkScan(0))
    case DoExit => Goto(p, me, ExitStart)
    case DoWait => Goto(p, me, WaitStart)
    case DoKill(pid) => Goto(p, me, KillScan(pid, 0))
    case DoAcquire(l) => Goto(p, me, AcqStart(l))
    case DoRelease(l) => Goto(p, me, RelStart(l))
    case _ =>
      match pc
      case Forkret => Goto(p, me, Idle).(drop := Some(PLock(p)))
      // yield
      case Yield(stage, k) =>
        if stage == 1 then Goto(p, me, Yield(2, k)).(q := me.(state := RUNNABLE))
        else if stage == 2 then Goto(p, me, Yield(3, k)).(swtch := true)
        else Goto(p, me, k).(drop := Some(PLock(p)))
      // sleep
      case Sleep(stage, ch) =>
        if stage == 1 then Goto(p, me, Sleep(2, ch)).(drop := Some(LkOf(ch)))
        else if stage == 2 then Goto(p, me, Sleep(3, ch)).(q := me.(chan := ch, state := SLEEPING))
        else if stage == 3 then Goto(p, me, Sleep(4, ch)).(swtch := true)
        else Goto(p, me, Sleep(5, ch)).(q := me.(chan := NoChan), drop := Some(PLock(p)))
      // wakeup
      case Wake(stage, ch, j, ret) =>
        if stage == 0 then Goto(p, me, if j == n then AfterWake(ret) else Wake(0, ch, j + 1, ret))
        else
          var q := if j < n then s.procs[j] else me;
          Goto(p, me, Wake(0, ch, j + 1, ret)).(drop := Some(PLock(j)), j := j,
            q := if q.state == SLEEPING && q.chan == ch then q.(state := RUNNABLE) else q)
      // kfork
      case ForkScan(i) => Goto(p, me, Idle)
      case ForkTest(i) =>
        if s.procs[i].state == UNUSED then
          Goto(p, me, ForkCopy(i)).(j := i, q := s.procs[i].(state := USED, pid := s.nextpid),
            thread := Some(Forkret), newpid := true)
        else Goto(p, me, ForkScan(i + 1)).(drop := Some(PLock(i)))
      case ForkCopy(np) =>
        if d.Fail? then Goto(p, me, Idle).(drop := Some(PLock(np)), j := np, q := Freed, thread := Some(Unborn))
        else Goto(p, me, ForkParent(np)).(drop := Some(PLock(np)))
      case ForkSet(np) =>
        Goto(p, me, ForkLock(np)).(drop := Some(WaitLock), j := np, q := s.procs[np].(parent := Some(p)))
      case ForkRun(np) =>
        Goto(p, me, Idle).(drop := Some(PLock(np)), j := np, q := s.procs[np].(state := RUNNABLE))
      // reparent and the rest of kexit
      case Reparent(i) =>
        if i == n then
          Goto(p, me, Wake(0, ProcChan(if me.parent.Some? then me.parent.value else INIT), 0, RetExit))
        else if s.procs[i].parent == Some(p) then
          Goto(p, me, Wake(0, ProcChan(INIT), 0, RetReparent(i + 1))).(j := i, q := s.procs[i].(parent := Some(INIT)))
        else Goto(p, me, Reparent(i + 1))
      case ExitZombie => Goto(p, me, ExitRel).(q := me.(state := ZOMBIE))
      case ExitRel => Goto(p, me, ExitSched).(drop := Some(WaitLock))
      case ExitSched => Goto(p, me, Dead).(swtch := true)
      // kwait
      case WaitScan(i, kids) =>
        Goto(p, me, if i == n then (if kids then WaitAsk else WaitRel(NoChild))
           else if s.procs[i].parent == Some(p) then WaitChild(i)
           else WaitScan(i + 1, kids))
      case WaitTest(i) =>
        if s.procs[i].state != ZOMBIE then Goto(p, me, WaitScan(i + 1, true)).(drop := Some(PLock(i)))
        else if d.Fail? then Goto(p, me, WaitReaped(i, NoCopy))
        else Goto(p, me, WaitReaped(i, Child(s.procs[i].pid))).(j := i, q := Freed, thread := Some(Unborn),
                                                                reap := true)
      case WaitReaped(i, r) => Goto(p, me, WaitRel(r)).(drop := Some(PLock(i)))
      case WaitKilled => Goto(p, me, if me.killed then WaitRel(WasKilled)
                              else Sleep(0, ProcChan(p))).(drop := Some(PLock(p)))
      case WaitRel(_) => Goto(p, me, Idle).(drop := Some(WaitLock))
      // kkill
      case KillScan(_, _) => Goto(p, me, Idle)
      case KillTest(pid, i) =>
        var q := s.procs[i];
        if q.pid == pid then
          Goto(p, me, Idle).(drop := Some(PLock(i)), j := i,
            q := q.(killed := true, state := if q.state == SLEEPING then RUNNABLE else q.state))
        else Goto(p, me, KillScan(pid, i + 1)).(drop := Some(PLock(i)))
      // acquiresleep and releasesleep
      case AcqTest(l) =>
        if s.slocks[l].locked then Goto(p, me, Sleep(0, LockChan(l)))
        else Goto(p, me, AcqRel(l)).(l := l, slock := Some(SLock(true, p)), ins := s.inside[l] + {p})
      case AcqRel(l) => Goto(p, me, Idle).(drop := Some(Inner(l)))
      case RelSet(l) =>
        Goto(p, me, Wake(0, LockChan(l), 0, RetRelease(l))).(l := l, slock := Some(SLock(false, 0)),
                                                             ins := s.inside[l] - {p})
      case RelDone(l) => Goto(p, me, Idle).(drop := Some(Inner(l)))
      case _ => Goto(p, me, pc)
  }

  /** A step of scheduler() on CPU `c`. */
  ghost predicate CanSchedule(s: State, c: nat)
    requires Shape(s)
  {
    && c < |s.cpus| && !s.cpus[c].sched.Away?
    && (s.cpus[c].sched.Scan? ==> PLock(s.cpus[c].sched.i) !in s.locks)
  }

  ghost function Schedule(s: State, c: nat): (s': State)
    requires Shape(s) && CanSchedule(s, c)
  {
    var cpu := s.cpus[c];
    match cpu.sched
    case Scan(i) => s.(locks := s.locks[PLock(i) := c], cpus := s.cpus[c := cpu.(sched := Check(i))])
    case Check(i) =>
      if s.procs[i].state == RUNNABLE then
        s.(procs := s.procs[i := s.procs[i].(state := RUNNING)], cpus := s.cpus[c := Cpu(Some(i), Chosen(i))])
      else
        s.(locks := s.locks - {PLock(i)}, cpus := s.cpus[c := cpu.(sched := Scan((i + 1) % |s.procs|))])
    case Chosen(i) =>
      s.(cpus := s.cpus[c := cpu.(sched := Away(i))], at := s.at[i := Some(c)])
    case Back(i) =>
      s.(locks := s.locks - {PLock(i)}, cpus := s.cpus[c := Cpu(None, Scan((i + 1) % |s.procs|))])
    case _ => s
  }

  /** After userinit: initproc is RUNNABLE, every CPU is in its scheduler. */
  ghost predicate Initial(s: State) {
    && Shape(s)
    && s.locks == map[] && s.reaped == {} && s.nextpid == 2
    && (forall c :: 0 <= c < |s.cpus| ==> s.cpus[c] == Cpu(None, Scan(0)))
    && (forall l :: 0 <= l < |s.slocks| ==> !s.slocks[l].locked && s.inside[l] == {})
    && s.procs[INIT] == Proc(RUNNABLE, NoChan, false, 1, None) && s.pcs[INIT] == Forkret && s.at[INIT] == None
    && (forall p :: 0 <= p < |s.procs| && p != INIT ==>
          s.procs[p] == Proc(UNUSED, NoChan, false, 0, None) && s.pcs[p] == Unborn && s.at[p] == None)
  }
}
