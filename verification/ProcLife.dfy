/** Parents, zombies and process ids: what fork, exit and wait keep between them. */
module ProcLife {
  import opened Common
  import opened ProcModel
  import opened ProcInv
  import opened ProcSleep

  /** A thread at `pc` cannot be the parent of process `i`. */
  predicate Childless(pc: PC, i: nat) {
    match pc
    case Unborn => true
    case Reparent(k) => i < k
    case Wake(_, _, _, ret) => ret.RetExit? || (ret.RetReparent? && i < ret.i)
    case ExitLock => true
    case ExitZombie => true
    case ExitRel => true
    case ExitSched => true
    case Dead => true
    case _ => false
  }

  /** Inside kexit. */
  predicate Exiting(pc: PC) {
    match Base(pc)
    case ExitStart => true
    case Reparent(_) => true
    case Wake(_, _, _, ret) => ret.RetExit? || ret.RetReparent?
    case ExitLock => true
    case ExitZombie => true
    case ExitRel => true
    case ExitSched => true
    case Dead => true
    case _ => false
  }

  ghost predicate ParentOk(s: State, i: nat)
    requires Shape(s) && i < |s.procs|
  {
    && (s.procs[i].parent.Some? ==>
          var r := s.procs[i].parent.value;
          r != i && i != INIT && !Childless(s.pcs[r], i) && s.procs[r].state != USED)
    && (i != INIT && s.procs[i].state != UNUSED && s.procs[i].state != USED ==> s.procs[i].parent.Some?)
    && (s.procs[i].state == UNUSED ==> s.procs[i].parent == None)
  }

  ghost predicate InitOk(s: State)
    requires Shape(s)
  {
    && s.procs[INIT].state != UNUSED && s.procs[INIT].state != USED && s.procs[INIT].state != ZOMBIE
    && !Exiting(s.pcs[INIT]) && !s.pcs[INIT].Unborn?
  }

  /** kfork gives its slot a parent before it makes it RUNNABLE. */
  ghost predicate ChildOk(s: State, p: nat, pc: PC)
    requires Shape(s)
  {
    match Base(pc)
    case ForkCopy(t) => t < |s.procs| && s.procs[t].parent == None
    case ForkParent(t) => t < |s.procs| && s.procs[t].parent == None
    case ForkSet(t) => t < |s.procs| && s.procs[t].parent == None
    case ForkLock(t) => t < |s.procs| && s.procs[t].parent == Some(p)
    case ForkRun(t) => t < |s.procs| && s.procs[t].parent == Some(p)
    case WaitChild(i) => i < |s.procs| && s.procs[i].parent == Some(p)
    case WaitTest(i) => i < |s.procs| && s.procs[i].parent == Some(p)
    case _ => true
  }

  /** An exiting process has woken its parent before it turns into a zombie. */
  ghost predicate ExitOk(s: State, p: nat)
    requires Shape(s) && p < |s.procs|
  {
    var pc, par := s.pcs[p], s.procs[p].parent;
    && (pc.Wake? && pc.ret.RetExit? ==> par.Some? && pc.ch == ProcChan(par.value))
    && (pc.ExitLock? || pc.ExitZombie? ==> par.Some? && !InSleep(s, par.value, ProcChan(par.value)))
  }

  /** How far a kwait scan has got without meeting a zombie child. */
  function Scanned(n: nat, pc: PC): (k: nat) {
    match pc
    case WaitScan(i, _) => i
    case WaitChild(i) => i
    case WaitTest(i) => i
    case WaitAsk => n
    case WaitKilled => n
    case _ => 0
  }

  ghost predicate ScanInv(s: State)
    requires Shape(s)
  {
    forall p, x :: 0 <= p < |s.procs| && 0 <= x < |s.procs| ==>
      x < Scanned(|s.procs|, s.pcs[p]) && s.procs[x].parent == Some(p) ==> s.procs[x].state != ZOMBIE
  }

  /** A parent asleep in kwait has no zombie child, except ahead of the wakeup that is coming. */
  ghost predicate ZombieInv(s: State)
    requires Shape(s)
  {
    forall p, x :: 0 <= p < |s.procs| && 0 <= x < |s.procs| ==>
      s.procs[x].parent == Some(p) && s.procs[x].state == ZOMBIE && InSleep(s, p, ProcChan(p)) ==>
        Pending(s, ProcChan(p), p)
  }

  ghost predicate FamilyInv(s: State)
    requires Shape(s)
  {
    && (forall i :: 0 <= i < |s.procs| ==> ParentOk(s, i))
    && InitOk(s)
    && (forall p :: 0 <= p < |s.procs| ==> ChildOk(s, p, s.pcs[p]))
    && (forall p :: 0 <= p < |s.procs| ==> ExitOk(s, p))
  }

  /** Process ids in use are distinct, below nextpid, and never one that kwait has handed out. */
  ghost predicate PidInv(s: State)
    requires Shape(s)
  {
    && (forall i :: 0 <= i < |s.procs| && s.procs[i].state != UNUSED ==>
          s.procs[i].pid < s.nextpid && s.procs[i].pid !in s.reaped)
    && (forall i, j :: 0 <= i < j < |s.procs| && s.procs[i].state != UNUSED && s.procs[j].state != UNUSED ==>
          s.procs[i].pid != s.procs[j].pid)
    && (forall x :: x in s.reaped ==> x < s.nextpid)
  }

  ghost predicate Inv(s: State) {
    SleepInv(s) && FamilyInv(s) && ScanInv(s) && ZombieInv(s) && PidInv(s)
  }

  // ------------------------------------------------------------ conditions

  ghost predicate LinksOk(s: State, p: nat, e: Effect)
    requires Shape(s) && p < |s.procs| && InRange(s, p, e)
  {
    var was := s.procs[e.j];
    // parent links change under wait_lock, and never those of another's half-made child
    && (e.q.parent != was.parent ==> WaitLock in HeldBy(p, s.pcs[p]))
    && (e.j != p && was.state == USED && e.q.parent != was.parent ==>
          Target(s.pcs[p]) == Some(e.j) || was.parent == Some(p))
    // the new link is to a process that can have children
    && (e.q.parent.Some? ==>
          var r := e.q.parent.value;
          r != e.j && e.j != INIT && !Childless(if r == p then e.pc else s.pcs[r], e.j)
              && NewProc(s, e, r).state != USED)
    // a thread that gives up its children has none left
    && (forall i :: 0 <= i < |s.procs| && Childless(e.pc, i) && !Childless(s.pcs[p], i) ==>
          NewProc(s, e, i).parent != Some(p))
    // slots are claimed and freed while childless
    && (e.thread.Some? ==> s.pcs[e.j].Unborn? || s.pcs[e.j].Dead? || was.state == USED)
    && (e.q.state == USED && was.state != USED ==> e.j != p && s.pcs[e.j].Unborn?)
    // started processes have a parent, free slots none
    && (e.j != INIT && e.q.state != UNUSED && e.q.state != USED ==> e.q.parent.Some?)
    && (e.q.state == UNUSED ==> e.q.parent == None)
  }

  ghost predicate InitKept(s: State, p: nat, e: Effect)
    requires Shape(s) && p < |s.procs| && InRange(s, p, e)
  {
    && (p == INIT ==> !Exiting(e.pc) && !e.pc.Unborn?)
    && (e.j == INIT ==>
          e.thread == None && e.q.state != UNUSED && e.q.state != USED && e.q.state != ZOMBIE)
  }

  ghost predicate ZombiesOk(s: State, p: nat, e: Effect)
    requires Shape(s) && p < |s.procs| && InRange(s, p, e)
  {
    var was := s.procs[e.j];
    // a process turns ZOMBIE by its own step, its parent awake
    && (e.q.state == ZOMBIE && was.state != ZOMBIE ==>
          && e.j == p && WaitLock in HeldBy(p, s.pcs[p]) && e.q.parent == was.parent
          && was.parent.Some? && !InSleep(s, was.parent.value, ProcChan(was.parent.value)))
    // a zombie changes parent only just before the wakeup of the new one
    && (e.q.parent != was.parent && e.q.parent.Some? && e.q.state == ZOMBIE ==>
          e.pc.Wake? && e.pc.ch == ProcChan(e.q.parent.value) && e.pc.j == 0 && p != e.q.parent.value)
    // kwait goes on scanning, or to sleep, past children that are not zombies
    && (forall x :: 0 <= x < |s.procs| ==>
          x < Scanned(|s.procs|, e.pc) && NewProc(s, e, x).parent == Some(p) ==> NewProc(s, e, x).state != ZOMBIE)
    && (forall x :: 0 <= x < |s.procs| ==>
          Asleep(e.pc, NewProc(s, e, p).state, ProcChan(p)) && !InSleep(s, p, ProcChan(p))
              && NewProc(s, e, x).parent == Some(p) ==>
            NewProc(s, e, x).state != ZOMBIE)
  }

  ghost predicate PidsOk(s: State, p: nat, e: Effect)
    requires Shape(s) && p < |s.procs| && InRange(s, p, e)
  {
    var was := s.procs[e.j];
    && (e.q.state != UNUSED && was.state != UNUSED ==> e.q.pid == was.pid)
    && (e.q.state != UNUSED && was.state == UNUSED ==> e.newpid && e.q.pid == s.nextpid)
    && (e.reap ==> was.state != UNUSED && e.q.state == UNUSED)
  }

  /** ChildOk and ExitOk for the running thread, after its step. */
  ghost predicate OwnOk(s: State, p: nat, e: Effect)
    requires Shape(s) && p < |s.procs| && InRange(s, p, e)
  {
    && OwnChild(s, p, e, e.pc)
    && (e.pc.Wake? && e.pc.ret.RetExit? ==>
          var par := NewProc(s, e, p).parent;
          par.Some? && e.pc.ch == ProcChan(par.value))
    && (e.pc.ExitLock? || e.pc.ExitZombie? ==>
          var par := NewProc(s, e, p).parent;
          par.Some? && par.value != p && par.value < |s.procs| && e.thread == None
          && !Asleep(s.pcs[par.value], NewProc(s, e, par.value).state, ProcChan(par.value)))
  }

  ghost predicate OwnChild(s: State, p: nat, e: Effect, pc: PC)
    requires Shape(s) && p < |s.procs| && InRange(s, p, e)
  {
    match Base(pc)
    case ForkCopy(t) => t < |s.procs| && NewProc(s, e, t).parent == None
    case ForkParent(t) => t < |s.procs| && NewProc(s, e, t).parent == None
    case ForkSet(t) => t < |s.procs| && NewProc(s, e, t).parent == None
    case ForkLock(t) => t < |s.procs| && NewProc(s, e, t).parent == Some(p)
    case ForkRun(t) => t < |s.procs| && NewProc(s, e, t).parent == Some(p)
    case WaitChild(i) => i < |s.procs| && NewProc(s, e, i).parent == Some(p)
    case WaitTest(i) => i < |s.procs| && NewProc(s, e, i).parent == Some(p)
    case _ => true
  }

  // ------------------------------------------------------------- thread steps

  lemma PerformParent(s: State, c: nat, p: nat, e: Effect, i: nat)
    requires Inv(s) && Runs(s, c, p) && p < |s.procs| && InRange(s, p, e) && LinksOk(s, p, e)
    requires Shape(Perform(s, c, p, e)) && i < |s.procs|
    ensures ParentOk(Perform(s, c, p, e), i)
  {
    assert ParentOk(s, i);
    OneCpu(s, c, p);
    if i == e.j {
      ParentWritten(s, c, p, e);
    } else if s.procs[i].parent.Some? {
      ParentLeft(s, c, p, e, i);
    }
  }

  lemma ParentWritten(s: State, c: nat, p: nat, e: Effect)
    requires Shape(s) && Runs(s, c, p) && p < |s.procs| && InRange(s, p, e) && LinksOk(s, p, e)
    requires Shape(Perform(s, c, p, e)) && ParentOk(s, e.j)
    ensures ParentOk(Perform(s, c, p, e), e.j)
  {
  }

  lemma ParentLeft(s: State, c: nat, p: nat, e: Effect, i: nat)
    requires Shape(s) && Runs(s, c, p) && p < |s.procs| && InRange(s, p, e) && LinksOk(s, p, e)
    requires Shape(Perform(s, c, p, e)) && i < |s.procs| && i != e.j && ParentOk(s, i) && s.procs[i].parent.Some?
    requires ProcOk(s, p) && ProcOk(s, s.procs[i].parent.value)
    ensures ParentOk(Perform(s, c, p, e), i)
  {
  }

  /** Nobody else changes the parent of a slot that thread `x` is filling in. */
  lemma TargetKept(s: State, c: nat, p: nat, e: Effect, x: nat)
    requires Core(s) && Runs(s, c, p) && p < |s.procs| && InRange(s, p, e) && LinksOk(s, p, e)
    requires x < |s.procs| && x != p && Target(s.pcs[x]).Some? && Target(s.pcs[x]).value < |s.procs|
    requires s.procs[Target(s.pcs[x]).value].parent != Some(p)
    ensures NewProc(s, e, Target(s.pcs[x]).value).parent == s.procs[Target(s.pcs[x]).value].parent
  {
  }

  lemma PerformChild(s: State, c: nat, p: nat, e: Effect, x: nat)
    requires Core(s) && Runs(s, c, p) && p < |s.procs| && InRange(s, p, e) && LinksOk(s, p, e)
    requires Shape(Perform(s, c, p, e)) && x < |s.procs| && x != p && ChildOk(s, x, s.pcs[x])
    requires e.thread.Some? ==> e.thread.value.Forkret? || e.thread.value.Unborn?
    ensures ChildOk(Perform(s, c, p, e), x, Perform(s, c, p, e).pcs[x])
  {
    var pc := s.pcs[x];
    assert PcOk(|s.procs|, |s.slocks|, pc);
    if !e.thread.Some? || x != e.j {
      if Target(pc).Some? {
        TargetKept(s, c, p, e, x);
        ChildStays(s, c, p, e, x, Target(pc).value);
      } else if pc.WaitChild? || pc.WaitTest? {
        if WaitLock in HeldBy(p, s.pcs[p]) { Exclusive(s, c, p, WaitLock, x); }
        ChildStays(s, c, p, e, x, pc.i);
      }
    }
  }

  /** What a thread knows about process `t` stays so while the parent of `t` does. */
  lemma ChildStays(s: State, c: nat, p: nat, e: Effect, x: nat, t: nat)
    requires Shape(s) && Runs(s, c, p) && p < |s.procs| && InRange(s, p, e) && Shape(Perform(s, c, p, e))
    requires x < |s.procs| && x != p && ChildOk(s, x, s.pcs[x]) && (e.thread.Some? ==> x != e.j)
    requires t < |s.procs| && NewProc(s, e, t).parent == s.procs[t].parent
    requires Target(s.pcs[x]) == Some(t) || (s.pcs[x].WaitChild? && s.pcs[x].i == t)
             || (s.pcs[x].WaitTest? && s.pcs[x].i == t)
    ensures ChildOk(Perform(s, c, p, e), x, Perform(s, c, p, e).pcs[x])
  {
  }

  /** Past reparent and up to the ZOMBIE assignment, a thread stays inside wait_lock. */
  predicate LateExit(pc: PC) {
    (pc.Wake? && pc.ret.RetExit? && pc.ch.ProcChan?) || pc.ExitLock? || pc.ExitZombie?
  }

  lemma PerformExit(s: State, c: nat, p: nat, e: Effect, x: nat)
    requires Inv(s) && Runs(s, c, p) && p < |s.procs| && InRange(s, p, e) && LinksOk(s, p, e) && SleepsOk(s, p, e)
    requires Shape(Perform(s, c, p, e)) && x < |s.procs| && x != p
    requires e.thread.Some? ==> e.thread.value.Forkret? || e.thread.value.Unborn?
    ensures ExitOk(Perform(s, c, p, e), x)
  {
    var s' := Perform(s, c, p, e);
    assert PcOk(|s.procs|, |s.slocks|, s'.pcs[x]);
    if LateExit(s'.pcs[x]) {
      assert s'.pcs[x] == s.pcs[x] && ExitOk(s, x);
      assert WaitLock !in HeldBy(p, s.pcs[p]) by {
        if WaitLock in HeldBy(p, s.pcs[p]) { Exclusive(s, c, p, WaitLock, x); }
      }
      var r := s.procs[x].parent.value;
      assert s'.procs[x].parent == Some(r);
      if InSleep(s', r, ProcChan(r)) {
        NewlyAsleep(s, c, p, e, r, ProcChan(r));
      }
    }
  }

  lemma PerformScan(s: State, c: nat, p: nat, e: Effect)
    requires Inv(s) && Runs(s, c, p) && p < |s.procs| && InRange(s, p, e) && LinksOk(s, p, e) && ZombiesOk(s, p, e)
    requires Shape(Perform(s, c, p, e))
    requires e.thread.Some? ==> e.thread.value.Forkret? || e.thread.value.Unborn?
    ensures ScanInv(Perform(s, c, p, e))
  {
    var s' := Perform(s, c, p, e);
    var n := |s.procs|;
    forall y, x | 0 <= y < n && 0 <= x < n && x < Scanned(n, s'.pcs[y]) && s'.procs[x].parent == Some(y)
      ensures s'.procs[x].state != ZOMBIE
    {
      if y != p {
        ScanStays(s, c, p, e, y, x);
      } else {
        assert s'.procs[x] == NewProc(s, e, x);
      }
    }
  }

  /** Another thread's scan is not disturbed. */
  lemma ScanStays(s: State, c: nat, p: nat, e: Effect, y: nat, x: nat)
    requires Core(s) && ScanInv(s) && Runs(s, c, p) && p < |s.procs| && InRange(s, p, e) && LinksOk(s, p, e)
    requires ZombiesOk(s, p, e) && Shape(Perform(s, c, p, e)) && y < |s.procs| && y != p && x < |s.procs|
    requires e.thread.Some? ==> e.thread.value.Forkret? || e.thread.value.Unborn?
    requires x < Scanned(|s.procs|, Perform(s, c, p, e).pcs[y]) && Perform(s, c, p, e).procs[x].parent == Some(y)
    ensures Perform(s, c, p, e).procs[x].state != ZOMBIE
  {
    assert Perform(s, c, p, e).pcs[y] == s.pcs[y];
    if WaitLock in HeldBy(p, s.pcs[p]) {
      Exclusive(s, c, p, WaitLock, y);
    }
  }

  lemma PerformZombies(s: State, c: nat, p: nat, e: Effect)
    requires Inv(s) && Runs(s, c, p) && p < |s.procs| && InRange(s, p, e) && LinksOk(s, p, e) && ZombiesOk(s, p, e)
    requires Shape(Perform(s, c, p, e)) && SleepsOk(s, p, e) && WakesOk(s, p, e)
    ensures ZombieInv(Perform(s, c, p, e))
  {
    var s' := Perform(s, c, p, e);
    var n := |s.procs|;
    forall y, x | 0 <= y < n && 0 <= x < n && s'.procs[x].parent == Some(y) && s'.procs[x].state == ZOMBIE
        && InSleep(s', y, ProcChan(y))
      ensures Pending(s', ProcChan(y), y)
    {
      ZombiePending(s, c, p, e, y, x);
    }
  }

  lemma ZombiePending(s: State, c: nat, p: nat, e: Effect, y: nat, x: nat)
    requires Inv(s) && Runs(s, c, p) && p < |s.procs| && InRange(s, p, e) && LinksOk(s, p, e) && ZombiesOk(s, p, e)
    requires Shape(Perform(s, c, p, e)) && SleepsOk(s, p, e) && WakesOk(s, p, e)
    requires x < |s.procs| && y < |s.procs|
    requires var s' := Perform(s, c, p, e);
             s'.procs[x].parent == Some(y) && s'.procs[x].state == ZOMBIE && InSleep(s', y, ProcChan(y))
    ensures Pending(Perform(s, c, p, e), ProcChan(y), y)
  {
    var s' := Perform(s, c, p, e);
    assert s'.procs[x] == NewProc(s, e, x);
    NewlyAsleep(s, c, p, e, y, ProcChan(y));
    assert ParentOk(s, x);
    assert InSleep(s, y, ProcChan(y));
    if s.procs[x].parent == Some(y) {
      assert s.procs[x].state == ZOMBIE;
      PendingStays(s, c, p, e, ProcChan(y), y);
    } else {
      assert s'.pcs[p].Wake? && s'.pcs[p].ch == ProcChan(y) && s'.pcs[p].j == 0 && p != y;
    }
  }

  lemma PerformPids(s: State, c: nat, p: nat, e: Effect)
    requires Shape(s) && PidInv(s) && Runs(s, c, p) && p < |s.procs| && InRange(s, p, e) && PidsOk(s, p, e)
    requires Shape(Perform(s, c, p, e))
    ensures PidInv(Perform(s, c, p, e))
    ensures e.reap ==> s.procs[e.j].pid !in s.reaped
  {
  }

  /** The running thread keeps its own ChildOk and ExitOk, and initproc stays. */
  lemma PerformOwn(s: State, c: nat, p: nat, e: Effect)
    requires Shape(s) && InitOk(s) && Runs(s, c, p) && p < |s.procs| && InRange(s, p, e) && Shape(Perform(s, c, p, e))
    requires e.thread.Some? ==> e.thread.value.Forkret? || e.thread.value.Unborn?
    requires InitKept(s, p, e) && OwnOk(s, p, e)
    ensures InitOk(Perform(s, c, p, e))
    ensures ChildOk(Perform(s, c, p, e), p, e.pc) && ExitOk(Perform(s, c, p, e), p)
  {
  }

  lemma PerformFamily(s: State, c: nat, p: nat, e: Effect)
    requires Inv(s) && Runs(s, c, p) && p < |s.procs| && InRange(s, p, e)
    requires SleepsOk(s, p, e) && Shape(Perform(s, c, p, e))
    requires e.thread.Some? ==> e.thread.value.Forkret? || e.thread.value.Unborn?
    requires LinksOk(s, p, e) && InitKept(s, p, e) && OwnOk(s, p, e)
    ensures FamilyInv(Perform(s, c, p, e))
  {
    var s' := Perform(s, c, p, e);
    PerformOwn(s, c, p, e);
    forall i | 0 <= i < |s.procs| ensures ParentOk(s', i) { PerformParent(s, c, p, e, i); }
    forall x | 0 <= x < |s.procs| ensures ChildOk(s', x, s'.pcs[x]) {
      if x != p { PerformChild(s, c, p, e, x); }
    }
    forall x | 0 <= x < |s.procs| ensures ExitOk(s', x) {
      if x != p { PerformExit(s, c, p, e, x); }
    }
  }

  lemma PerformLife(s: State, c: nat, p: nat, e: Effect)
    requires Inv(s) && Runs(s, c, p) && p < |s.procs| && InRange(s, p, e)
    requires SleepsOk(s, p, e) && WakesOk(s, p, e) && SleepInv(Perform(s, c, p, e))
    requires e.thread.Some? ==> e.thread.value.Forkret? || e.thread.value.Unborn?
    requires LinksOk(s, p, e) && InitKept(s, p, e) && ZombiesOk(s, p, e) && PidsOk(s, p, e) && OwnOk(s, p, e)
    ensures Inv(Perform(s, c, p, e))
  {
    PerformFamily(s, c, p, e);
    PerformScan(s, c, p, e);
    PerformZombies(s, c, p, e);
    PerformPids(s, c, p, e);
  }

  // -------------------------------------------------- the steps of the source

  /** A step that changes no parent, keeps zombies and pids as they are, and puts nobody to sleep. */
  ghost predicate Calm(s: State, s': State) {
    && Shape(s) && Shape(s') && |s'.procs| == |s.procs|
    && s'.nextpid == s.nextpid && s'.reaped == s.reaped
    && (forall i :: 0 <= i < |s.procs| ==>
          && s'.procs[i].parent == s.procs[i].parent && s'.procs[i].pid == s.procs[i].pid
          && (s'.procs[i].state == s.procs[i].state || (s.procs[i].state == RUNNABLE && s'.procs[i].state == RUNNING)))
    && (forall i :: 0 <= i < |s.procs| ==> s'.pcs[i] == s.pcs[i] || s'.pcs[i] == Acquired(s.pcs[i]))
  }

  lemma CalmFamily(s: State, s': State)
    requires Calm(s, s') && FamilyInv(s)
    ensures FamilyInv(s')
  {
    forall i | 0 <= i < |s.procs| ensures ParentOk(s', i) { CalmParent(s, s', i); }
    forall x | 0 <= x < |s.procs| ensures ChildOk(s', x, s'.pcs[x]) { CalmChild(s, s', x); }
    forall x | 0 <= x < |s.procs| ensures ExitOk(s', x) { CalmExit(s, s', x); }
  }

  lemma CalmParent(s: State, s': State, i: nat)
    requires Calm(s, s') && i < |s.procs| && ParentOk(s, i)
    ensures ParentOk(s', i)
  {
  }

  lemma CalmChild(s: State, s': State, x: nat)
    requires Calm(s, s') && x < |s.procs| && ChildOk(s, x, s.pcs[x])
    ensures ChildOk(s', x, s'.pcs[x])
  {
  }

  lemma CalmExit(s: State, s': State, x: nat)
    requires Calm(s, s') && x < |s.procs| && ExitOk(s, x)
    ensures ExitOk(s', x)
  {
  }

  lemma CalmScan(s: State, s': State)
    requires Calm(s, s') && ScanInv(s)
    ensures ScanInv(s')
  {
  }

  lemma CalmZombies(s: State, s': State)
    requires Calm(s, s') && ZombieInv(s)
    ensures ZombieInv(s')
  {
  }

  lemma AcquireLife(s: State, c: nat, p: nat, l: Lock)
    requires Inv(s) && CanAcquire(s, c, p, l)
    ensures Inv(DoAcquireStep(s, c, p, l))
  {
    AcquireSleep(s, c, p, l);
    CalmFamily(s, DoAcquireStep(s, c, p, l));
    CalmScan(s, DoAcquireStep(s, c, p, l));
    CalmZombies(s, DoAcquireStep(s, c, p, l));
  }

  lemma ScheduleLife(s: State, c: nat)
    requires Inv(s) && CanSchedule(s, c)
    ensures Inv(Schedule(s, c))
  {
    ScheduleSleep(s, c);
    CalmFamily(s, Schedule(s, c));
    CalmScan(s, Schedule(s, c));
    CalmZombies(s, Schedule(s, c));
  }

  /** The facts about families that a thread step is checked against. */
  ghost predicate LifeFacts(s: State, p: nat, j: nat)
    requires Shape(s) && p < |s.procs| && j < |s.procs|
  {
    var pc := s.pcs[p];
    && ParentOk(s, p) && ParentOk(s, j) && ProcOk(s, j) && InitOk(s) && ChildOk(s, p, pc) && ExitOk(s, p)
    && (forall i :: 0 <= i < |s.procs| && s.procs[i].parent == Some(p) ==> !Childless(pc, i))
    && (forall x :: 0 <= x < |s.procs| && x < Scanned(|s.procs|, pc) && s.procs[x].parent == Some(p) ==>
          s.procs[x].state != ZOMBIE)
    && (pc.Wake? && pc.ret.RetExit? && pc.j == |s.procs| ==>
          s.procs[p].parent.Some? && !InSleep(s, s.procs[p].parent.value, ProcChan(s.procs[p].parent.value)))
  }

  lemma WorkLifeFacts(s: State, c: nat, p: nat, j: nat)
    requires Inv(s) && Runs(s, c, p) && p < |s.procs| && j < |s.procs|
    ensures LifeFacts(s, p, j)
  {
    assert ParentOk(s, p) && ParentOk(s, j) && ProcOk(s, j) && ChildOk(s, p, s.pcs[p]) && ExitOk(s, p);
    forall i | 0 <= i < |s.procs| && s.procs[i].parent == Some(p) ensures !Childless(s.pcs[p], i) {
      assert ParentOk(s, i);
    }
  }

  /** The parent links come out right. */
  ghost predicate RightLinks(s: State, p: nat, d: Choice)
    requires Shape(s) && p < |s.procs| && InRange(s, p, Work(s, p, d))
  {
    LinksOk(s, p, Work(s, p, d))
  }

  /** The zombies come out right. */
  ghost predicate RightZombies(s: State, p: nat, d: Choice)
    requires Shape(s) && p < |s.procs| && InRange(s, p, Work(s, p, d))
  {
    ZombiesOk(s, p, Work(s, p, d))
  }

  /** So do initproc, the ids, and what the thread itself knows. */
  ghost predicate RightOwn(s: State, p: nat, d: Choice)
    requires Shape(s) && p < |s.procs| && InRange(s, p, Work(s, p, d))
  {
    var e := Work(s, p, d);
    InitKept(s, p, e) && PidsOk(s, p, e) && OwnOk(s, p, e)
  }

  ghost predicate LifeStepIn(s: State, c: nat, p: nat, d: Choice, k: Part) {
    StepIn(s, c, p, d, k) && InRange(s, p, Work(s, p, d)) && LifeFacts(s, p, Work(s, p, d).j)
  }

  lemma DivertLinks(s: State, c: nat, p: nat, d: Choice)
    requires LifeStepIn(s, c, p, d, Divert)
    ensures RightLinks(s, p, d)
  {
  }

  lemma YieldLinks(s: State, c: nat, p: nat, d: Choice)
    requires LifeStepIn(s, c, p, d, Yields)
    ensures RightLinks(s, p, d)
  {
  }

  lemma SleepLinks(s: State, c: nat, p: nat, d: Choice)
    requires LifeStepIn(s, c, p, d, Sleeps)
    ensures RightLinks(s, p, d)
  {
  }

  lemma WakeLinks(s: State, c: nat, p: nat, d: Choice)
    requires LifeStepIn(s, c, p, d, Wakes)
    ensures RightLinks(s, p, d)
  {
  }

  lemma ForkLinks(s: State, c: nat, p: nat, d: Choice)
    requires LifeStepIn(s, c, p, d, Forks)
    ensures RightLinks(s, p, d)
  {
  }

  lemma StartLinks(s: State, c: nat, p: nat, d: Choice)
    requires LifeStepIn(s, c, p, d, Starts)
    ensures RightLinks(s, p, d)
  {
  }

  lemma ReparentLinks(s: State, c: nat, p: nat, d: Choice)
    requires LifeStepIn(s, c, p, d, Reparents)
    ensures RightLinks(s, p, d)
  {
  }

  lemma ExitLinks(s: State, c: nat, p: nat, d: Choice)
    requires LifeStepIn(s, c, p, d, Exits)
    ensures RightLinks(s, p, d)
  {
  }

  lemma ScanLinks(s: State, c: nat, p: nat, d: Choice)
    requires LifeStepIn(s, c, p, d, Scans)
    ensures RightLinks(s, p, d)
  {
  }

  lemma WaitLinks(s: State, c: nat, p: nat, d: Choice)
    requires LifeStepIn(s, c, p, d, Waits)
    ensures RightLinks(s, p, d)
  {
  }

  lemma ReapLinks(s: State, c: nat, p: nat, d: Choice)
    requires LifeStepIn(s, c, p, d, Reaps)
    ensures RightLinks(s, p, d)
  {
  }

  lemma LockLinks(s: State, c: nat, p: nat, d: Choice)
    requires LifeStepIn(s, c, p, d, Locks)
    ensures RightLinks(s, p, d)
  {
  }

  lemma KillLinks(s: State, c: nat, p: nat, d: Choice)
    requires LifeStepIn(s, c, p, d, Kills)
    ensures RightLinks(s, p, d)
  {
  }

  lemma DivertZombies(s: State, c: nat, p: nat, d: Choice)
    requires LifeStepIn(s, c, p, d, Divert)
    ensures RightZombies(s, p, d)
  {
  }

  lemma YieldZombies(s: State, c: nat, p: nat, d: Choice)
    requires LifeStepIn(s, c, p, d, Yields)
    ensures RightZombies(s, p, d)
  {
  }

  lemma SleepZombies(s: State, c: nat, p: nat, d: Choice)
    requires LifeStepIn(s, c, p, d, Sleeps)
    ensures RightZombies(s, p, d)
  {
  }

  lemma WakeZombies(s: State, c: nat, p: nat, d: Choice)
    requires LifeStepIn(s, c, p, d, Wakes)
    ensures RightZombies(s, p, d)
  {
  }

  lemma ForkZombies(s: State, c: nat, p: nat, d: Choice)
    requires LifeStepIn(s, c, p, d, Forks)
    ensures RightZombies(s, p, d)
  {
  }

  lemma StartZombies(s: State, c: nat, p: nat, d: Choice)
    requires LifeStepIn(s, c, p, d, Starts)
    ensures RightZombies(s, p, d)
  {
  }

  lemma ReparentZombies(s: State, c: nat, p: nat, d: Choice)
    requires LifeStepIn(s, c, p, d, Reparents)
    ensures RightZombies(s, p, d)
  {
  }

  lemma ExitZombies(s: State, c: nat, p: nat, d: Choice)
    requires LifeStepIn(s, c, p, d, Exits)
    ensures RightZombies(s, p, d)
  {
  }

  lemma ScanZombies(s: State, c: nat, p: nat, d: Choice)
    requires LifeStepIn(s, c, p, d, Scans)
    ensures RightZombies(s, p, d)
  {
  }

  lemma WaitZombies(s: State, c: nat, p: nat, d: Choice)
    requires LifeStepIn(s, c, p, d, Waits)
    ensures RightZombies(s, p, d)
  {
  }

  lemma ReapZombies(s: State, c: nat, p: nat, d: Choice)
    requires LifeStepIn(s, c, p, d, Reaps)
    ensures RightZombies(s, p, d)
  {
  }

  lemma LockZombies(s: State, c: nat, p: nat, d: Choice)
    requires LifeStepIn(s, c, p, d, Locks)
    ensures RightZombies(s, p, d)
  {
  }

  lemma KillZombies(s: State, c: nat, p: nat, d: Choice)
    requires LifeStepIn(s, c, p, d, Kills)
    ensures RightZombies(s, p, d)
  {
  }

  lemma DivertOwn(s: State, c: nat, p: nat, d: Choice)
    requires LifeStepIn(s, c, p, d, Divert)
    ensures RightOwn(s, p, d)
  {
  }

  lemma YieldOwn(s: State, c: nat, p: nat, d: Choice)
    requires LifeStepIn(s, c, p, d, Yields)
    ensures RightOwn(s, p, d)
  {
  }

  lemma SleepOwn(s: State, c: nat, p: nat, d: Choice)
    requires LifeStepIn(s, c, p, d, Sleeps)
    ensures RightOwn(s, p, d)
  {
  }

  lemma WakeOwn(s: State, c: nat, p: nat, d: Choice)
    requires LifeStepIn(s, c, p, d, Wakes)
    ensures RightOwn(s, p, d)
  {
  }

  lemma ForkOwn(s: State, c: nat, p: nat, d: Choice)
    requires LifeStepIn(s, c, p, d, Forks)
    ensures RightOwn(s, p, d)
  {
  }

  lemma StartOwn(s: State, c: nat, p: nat, d: Choice)
    requires LifeStepIn(s, c, p, d, Starts)
    ensures RightOwn(s, p, d)
  {
  }

  lemma ReparentOwn(s: State, c: nat, p: nat, d: Choice)
    requires LifeStepIn(s, c, p, d, Reparents)
    ensures RightOwn(s, p, d)
  {
  }

  lemma ExitOwn(s: State, c: nat, p: nat, d: Choice)
    requires LifeStepIn(s, c, p, d, Exits)
    ensures RightOwn(s, p, d)
  {
  }

  lemma ScanOwn(s: State, c: nat, p: nat, d: Choice)
    requires LifeStepIn(s, c, p, d, Scans)
    ensures RightOwn(s, p, d)
  {
  }

  lemma WaitOwn(s: State, c: nat, p: nat, d: Choice)
    requires LifeStepIn(s, c, p, d, Waits)
    ensures RightOwn(s, p, d)
  {
  }

  lemma ReapOwn(s: State, c: nat, p: nat, d: Choice)
    requires LifeStepIn(s, c, p, d, Reaps)
    ensures RightOwn(s, p, d)
  {
  }

  lemma LockOwn(s: State, c: nat, p: nat, d: Choice)
    requires LifeStepIn(s, c, p, d, Locks)
    ensures RightOwn(s, p, d)
  {
  }

  lemma KillOwn(s: State, c: nat, p: nat, d: Choice)
    requires LifeStepIn(s, c, p, d, Kills)
    ensures RightOwn(s, p, d)
  {
  }

  lemma WorkRight(s: State, c: nat, p: nat, d: Choice)
    requires Shape(s) && CanWork(s, c, p, d) && Facts(s, c, p) && InRange(s, p, Work(s, p, d))
    requires LifeFacts(s, p, Work(s, p, d).j)
    ensures RightLinks(s, p, d) && RightZombies(s, p, d) && RightOwn(s, p, d)
  {
    match PartOf(s.pcs[p], d)
    case Divert => DivertLinks(s, c, p, d); DivertZombies(s, c, p, d); DivertOwn(s, c, p, d);
    case Yields => YieldLinks(s, c, p, d); YieldZombies(s, c, p, d); YieldOwn(s, c, p, d);
    case Sleeps => SleepLinks(s, c, p, d); SleepZombies(s, c, p, d); SleepOwn(s, c, p, d);
    case Wakes => WakeLinks(s, c, p, d); WakeZombies(s, c, p, d); WakeOwn(s, c, p, d);
    case Forks => ForkLinks(s, c, p, d); ForkZombies(s, c, p, d); ForkOwn(s, c, p, d);
    case Starts => StartLinks(s, c, p, d); StartZombies(s, c, p, d); StartOwn(s, c, p, d);
    case Reparents => ReparentLinks(s, c, p, d); ReparentZombies(s, c, p, d); ReparentOwn(s, c, p, d);
    case Exits => ExitLinks(s, c, p, d); ExitZombies(s, c, p, d); ExitOwn(s, c, p, d);
    case Scans => ScanLinks(s, c, p, d); ScanZombies(s, c, p, d); ScanOwn(s, c, p, d);
    case Waits => WaitLinks(s, c, p, d); WaitZombies(s, c, p, d); WaitOwn(s, c, p, d);
    case Reaps => ReapLinks(s, c, p, d); ReapZombies(s, c, p, d); ReapOwn(s, c, p, d);
    case Locks => LockLinks(s, c, p, d); LockZombies(s, c, p, d); LockOwn(s, c, p, d);
    case Kills => KillLinks(s, c, p, d); KillZombies(s, c, p, d); KillOwn(s, c, p, d);
    case Nowhere => assert false;
  }

  lemma WorkLife(s: State, c: nat, p: nat, d: Choice)
    requires Inv(s) && CanWork(s, c, p, d)
    ensures InRange(s, p, Work(s, p, d)) && Inv(Perform(s, c, p, Work(s, p, d)))
  {
    WorkSleep(s, c, p, d);
    WorkFacts(s, c, p);
    WorkSleepFacts(s, c, p);
    WorkSound(s, c, p, d);
    var e := Work(s, p, d);
    WorkLifeFacts(s, c, p, e.j);
    WorkRight(s, c, p, d);
    PerformLife(s, c, p, e);
  }
}
