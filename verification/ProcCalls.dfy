/** What each system call has done when it returns, and that it gets there. */
module ProcCalls {
  import opened Common
  import opened ProcModel
  import opened ProcInv
  import opened ProcSleep
  import opened ProcLife
  import opened ProcRuns
  import PR = ProcRuns

  // ------------------------------------------- what a thread knows at each point

  /** One of the first `i` slots is a child of `p`. */
  ghost predicate HasKid(s: State, p: nat, i: nat) {
    exists x :: 0 <= x < i && x < |s.procs| && s.procs[x].parent == Some(p)
  }

  /** What kwait returns is right. */
  ghost predicate EndOk(s: State, p: nat, r: Outcome)
    requires p < |s.procs|
  {
    match r
    case NoChild => !HasKid(s, p, |s.procs|)
    case WasKilled => s.procs[p].killed
    case NoCopy => true
    case Child(pid) => pid in s.reaped
  }

  ghost predicate CallOk(s: State, p: nat, pc: PC)
    requires Shape(s) && p < |s.procs|
  {
    match pc
    case WaitScan(i, kids) => kids <==> HasKid(s, p, i)
    case WaitChild(i) => HasKid(s, p, i + 1)
    case WaitTest(i) => HasKid(s, p, i + 1)
    case WaitAsk => HasKid(s, p, |s.procs|)
    case WaitKilled => HasKid(s, p, |s.procs|)
    case WaitReaped(_, r) => !r.NoChild? && EndOk(s, p, r)
    case WaitRel(r) => EndOk(s, p, r)
    case AcqRel(l) => l < |s.slocks| && s.slocks[l] == SLock(true, p) && p in s.inside[l]
    case Wake(_, _, _, ret) => ret.RetRelease? ==> ret.l < |s.slocks| && !s.slocks[ret.l].locked
    case RelDone(l) => l < |s.slocks| && !s.slocks[l].locked
    case _ => true
  }

  ghost predicate CallInv(s: State)
    requires Shape(s)
  {
    forall p :: 0 <= p < |s.procs| ==> CallOk(s, p, s.pcs[p])
  }

  lemma SameKids(s: State, s': State)
    requires |s'.procs| == |s.procs| && forall y :: 0 <= y < |s.procs| ==> s'.procs[y].parent == s.procs[y].parent
    ensures forall p, i :: HasKid(s', p, i) <==> HasKid(s, p, i)
  {
  }

  /** Inside wait_lock a thread's children stay as they are. */
  lemma KidsStay(s: State, c: nat, p: nat, e: Effect, x: nat, i: nat)
    requires Core(s) && Runs(s, c, p) && p < |s.procs| && InRange(s, p, e) && LinksOk(s, p, e)
    requires x < |s.procs| && x != p && WaitLock in HeldBy(x, s.pcs[x])
    ensures HasKid(Perform(s, c, p, e), x, i) <==> HasKid(s, x, i)
  {
    if WaitLock in HeldBy(p, s.pcs[p]) { Exclusive(s, c, p, WaitLock, x); }
    var s' := Perform(s, c, p, e);
    assert forall y :: 0 <= y < |s.procs| ==> s'.procs[y].parent == s.procs[y].parent;
  }

  /** A sleep-lock is written inside its spin-lock only, and only freeproc clears the killed flag. */
  ghost predicate WritesOk(s: State, p: nat, e: Effect)
    requires Shape(s) && p < |s.procs| && InRange(s, p, e)
  {
    && (e.slock.Some? ==> Inner(e.l) in HeldBy(p, s.pcs[p]))
    && (s.procs[e.j].killed && !e.q.killed ==> e.thread == Some(Unborn))
  }

  /** A step of another thread does not change what a thread knows. */
  lemma OtherOk(s: State, c: nat, p: nat, e: Effect, x: nat)
    requires Core(s) && Runs(s, c, p) && p < |s.procs| && InRange(s, p, e) && LinksOk(s, p, e) && WritesOk(s, p, e)
    requires Shape(Perform(s, c, p, e)) && x < |s.procs| && x != p && CallOk(s, x, s.pcs[x])
    requires e.thread.Some? ==> e.thread.value.Forkret? || e.thread.value.Unborn?
    ensures CallOk(Perform(s, c, p, e), x, Perform(s, c, p, e).pcs[x])
  {
    var pc, s' := s.pcs[x], Perform(s, c, p, e);
    assert ProcOk(s, x) && PcOk(|s.procs|, |s.slocks|, pc);
    if !e.thread.Some? || x != e.j {
      if WaitLock in HeldBy(x, pc) {
        forall i: nat ensures HasKid(s', x, i) <==> HasKid(s, x, i) { KidsStay(s, c, p, e, x, i); }
      }
      if e.slock.Some? && Inner(e.l) in HeldBy(x, pc) { Exclusive(s, c, p, Inner(e.l), x); }
    }
  }

  /** The thread's own step. */
  ghost predicate OwnCall(s: State, c: nat, p: nat, d: Choice)
    requires Shape(s) && p < |s.procs| && c < |s.cpus| && InRange(s, p, Work(s, p, d))
  {
    var e := Work(s, p, d);
    WritesOk(s, p, e) && (Shape(Perform(s, c, p, e)) ==> CallOk(Perform(s, c, p, e), p, e.pc))
  }

  ghost predicate CallStepIn(s: State, c: nat, p: nat, d: Choice) {
    && Shape(s) && CanWork(s, c, p, d) && InRange(s, p, Work(s, p, d)) && SleepFacts(s, p) && CallOk(s, p, s.pcs[p])
  }

  lemma KidsMore(s: State, p: nat, i: nat)
    requires i < |s.procs|
    ensures HasKid(s, p, i + 1) <==> HasKid(s, p, i) || s.procs[i].parent == Some(p)
  {
    if HasKid(s, p, i + 1) {
      var x :| 0 <= x < i + 1 && x < |s.procs| && s.procs[x].parent == Some(p);
    }
  }

  lemma WaitCall(s: State, c: nat, p: nat, d: Choice)
    requires CallStepIn(s, c, p, d) && PartOf(s.pcs[p], d) in {Scans, Waits, Reaps}
    ensures OwnCall(s, c, p, d)
  {
    var pc, s' := s.pcs[p], Perform(s, c, p, Work(s, p, d));
    if pc.WaitScan? || pc.WaitTest? || pc.WaitKilled? {
      assert PcOk(|s.procs|, |s.slocks|, pc);
      if pc.WaitScan? && pc.i < |s.procs| { KidsMore(s, p, pc.i); }
      if !Work(s, p, d).reap { SameKids(s, s'); }
    } else {
      SameKids(s, s');
    }
  }

  lemma LockCall(s: State, c: nat, p: nat, d: Choice)
    requires CallStepIn(s, c, p, d) && PartOf(s.pcs[p], d) in {Locks, Wakes, Kills}
    ensures OwnCall(s, c, p, d)
  {
    assert PcOk(|s.procs|, |s.slocks|, s.pcs[p]);
  }

  lemma OtherCall(s: State, c: nat, p: nat, d: Choice)
    requires CallStepIn(s, c, p, d) && PartOf(s.pcs[p], d) !in {Locks, Wakes, Kills, Scans, Waits, Reaps}
    ensures OwnCall(s, c, p, d)
  {
    assert PcOk(|s.procs|, |s.slocks|, s.pcs[p]);
  }

  lemma WorkCalls(s: State, c: nat, p: nat, d: Choice)
    requires Inv(s) && CallInv(s) && CanWork(s, c, p, d)
    ensures InRange(s, p, Work(s, p, d)) && Shape(Perform(s, c, p, Work(s, p, d)))
    ensures CallInv(Perform(s, c, p, Work(s, p, d)))
  {
    var e := Work(s, p, d);
    WorkLife(s, c, p, d);
    WorkFacts(s, c, p);
    WorkSleepFacts(s, c, p);
    WorkSound(s, c, p, d);
    WorkLifeFacts(s, c, p, e.j);
    WorkRight(s, c, p, d);
    assert CallOk(s, p, s.pcs[p]);
    var k := PartOf(s.pcs[p], d);
    if k in {Scans, Waits, Reaps} {
      WaitCall(s, c, p, d);
    } else if k in {Locks, Wakes, Kills} {
      LockCall(s, c, p, d);
    } else {
      OtherCall(s, c, p, d);
    }
    var s' := Perform(s, c, p, e);
    forall x | 0 <= x < |s'.procs| ensures CallOk(s', x, s'.pcs[x]) {
      if x != p { OtherOk(s, c, p, e, x); }
    }
  }

  lemma AcquireCalls(s: State, c: nat, p: nat, l: Lock)
    requires Inv(s) && CallInv(s) && CanAcquire(s, c, p, l) && Shape(DoAcquireStep(s, c, p, l))
    ensures CallInv(DoAcquireStep(s, c, p, l))
  {
    var s' := DoAcquireStep(s, c, p, l);
    forall x | 0 <= x < |s'.procs| ensures CallOk(s', x, s'.pcs[x]) {
      assert CallOk(s, x, s.pcs[x]);
    }
  }

  lemma ScheduleCalls(s: State, c: nat)
    requires Shape(s) && CallInv(s) && CanSchedule(s, c) && Shape(Schedule(s, c))
    ensures CallInv(Schedule(s, c))
  {
    var s' := Schedule(s, c);
    SameKids(s, s');
    forall x | 0 <= x < |s'.procs| ensures CallOk(s', x, s'.pcs[x]) {
      assert CallOk(s, x, s.pcs[x]);
    }
  }

  lemma NextCalls(s: State, x: Step, s': State)
    requires Inv(s) && CallInv(s) && Next(s, x, s')
    ensures Inv(s') && CallInv(s')
  {
    NextInv(s, x, s');
    match x
    case Acquire(c, p, l) => AcquireCalls(s, c, p, l);
    case Thread(c, p, d) => WorkCalls(s, c, p, d);
    case Sched(c) => ScheduleCalls(s, c);
  }

  /** In every run, at every point of its code, a thread knows what it should. */
  lemma {:induction false} RunCalls(ss: seq<State>, xs: seq<Step>, k: nat)
    requires Run(ss, xs) && k < |ss|
    ensures Inv(ss[k]) && CallInv(ss[k])
  {
    if k == 0 {
      InitialInv(ss[0]);
    } else {
      RunCalls(ss, xs, k - 1);
      NextCalls(ss[k - 1], xs[k - 1], ss[k]);
    }
  }

  // -------------------------------------------------------------- calls in a run

  /** Thread `p` is inside the call that choice `d` began. */
  predicate InCall(d: Choice, p: nat, pc: PC) {
    match Base(pc)
    case ForkScan(_) | ForkTest(_) | ForkCopy(_) | ForkParent(_) | ForkSet(_) | ForkLock(_) | ForkRun(_) => d.DoFork?
    case WaitStart | WaitScan(_, _) | WaitChild(_) | WaitTest(_) | WaitReaped(_,
                                                                              _) | WaitAsk | WaitKilled | WaitRel(_) =>
      d.DoWait?
    case KillScan(pid, _) => d == DoKill(pid)
    case KillTest(pid, _) => d == DoKill(pid)
    case AcqStart(l) => d == DoAcquire(l)
    case AcqTest(l) => d == DoAcquire(l)
    case AcqRel(l) => d == DoAcquire(l)
    case Sleep(_, ch) => (d.DoWait? && ch == ProcChan(p)) || (d.DoAcquire? && ch == LockChan(d.l))
    case RelStart(l) => d == DoRelease(l)
    case RelSet(l) => d == DoRelease(l)
    case RelDone(l) => d == DoRelease(l)
    case Wake(_, _, _, ret) => if ret.RetRelease? then d == DoRelease(ret.l) else d.DoExit?
    case ExitStart | Reparent(_) | ExitLock | ExitZombie | ExitRel | ExitSched | Dead => d.DoExit?
    case _ => false
  }

  lemma CallBegins(s: State, c: nat, p: nat, d: Choice)
    requires Shape(s) && CanWork(s, c, p, d) && !d.Go? && !d.Fail? && !d.Preempt?
    ensures s.pcs[p].Idle? && InCall(d, p, Work(s, p, d).pc)
  {
  }

  /** A step of the thread stays in the call or returns from it. */
  lemma CallGoesOn(s: State, c: nat, p: nat, d: Choice, d0: Choice)
    requires Shape(s) && CanWork(s, c, p, d) && InCall(d0, p, s.pcs[p])
    ensures InCall(d0, p, Work(s, p, d).pc) || Work(s, p, d).pc.Idle?
  {
    assert PcOk(|s.procs|, |s.slocks|, s.pcs[p]);
  }

  lemma CallAcquires(n: nat, p: nat, pc: PC, d0: Choice)
    requires InCall(d0, p, pc) && Wants(n, p, pc).Some?
    ensures InCall(d0, p, Acquired(pc))
  {
  }

  /** Other threads and the scheduler leave a thread where it is, until it is dead. */
  lemma PcStays(s: State, x: Step, s': State, p: nat)
    requires Inv(s) && Next(s, x, s') && p < |s.procs| && !s.pcs[p].Dead? && !s.pcs[p].Unborn? && !s.pcs[p].Forkret?
    requires x.Sched? || x.p != p
    ensures p < |s'.pcs| && s'.pcs[p] == s.pcs[p]
  {
    if x.Thread? { ThreadMade(s, x.c, x.p, x.d); }
  }

  /** Only a slot without a thread, or with a dead one, gets a thread, and only a dead one or a new one is freed. */
  lemma ThreadMade(s: State, c: nat, q: nat, d: Choice)
    requires Inv(s) && CanWork(s, c, q, d) && InRange(s, q, Work(s, q, d))
    ensures var e := Work(s, q, d);
            e.thread.Some? ==> e.j != q && (s.pcs[e.j].Unborn? || s.pcs[e.j].Dead? || s.pcs[e.j].Forkret?)
  {
    var e := Work(s, q, d);
    WorkFacts(s, c, q);
    WorkLifeFacts(s, c, q, e.j);
    WorkRight(s, c, q, d);
    assert ProcOk(s, e.j);
  }

  lemma CallStays(s: State, x: Step, s': State, p: nat, d0: Choice)
    requires Inv(s) && Next(s, x, s') && p < |s.procs| && InCall(d0, p, s.pcs[p]) && !s.pcs[p].Dead?
    ensures p < |s'.procs| == |s'.pcs| && (InCall(d0, p, s'.pcs[p]) || s'.pcs[p].Idle?)
  {
    if x.Sched? || x.p != p {
      PcStays(s, x, s', p);
    } else if x.Acquire? {
      CallAcquires(|s.procs|, p, s.pcs[p], d0);
    } else {
      CallGoesOn(s, x.c, p, x.d, d0);
    }
  }

  /** A run, opened only where its steps are looked at. */
  ghost predicate Ran(ss: seq<State>, xs: seq<Step>) {
    |ss| == |xs| + 1 && forall k: int {:trigger Asked(k)} :: Asked(k) ==> Run(ss, xs)
  }

  lemma RanIs(ss: seq<State>, xs: seq<Step>)
    requires Ran(ss, xs)
    ensures Run(ss, xs)
  {
    assert Asked(0);
  }

  /** Step `a` begins a call of `p`, which has not returned by moment `k`. */
  ghost predicate Calling(ss: seq<State>, xs: seq<Step>, a: nat, k: nat, p: nat, d: Choice) {
    && Ran(ss, xs) && a < k < |ss| && xs[a].Thread? && xs[a].p == p && xs[a].d == d
    && !d.Go? && !d.Fail? && !d.Preempt?
    && forall m :: a < m <= k ==> p < |ss[m].pcs| && !Base(ss[m].pcs[p]).Idle? && !ss[m].pcs[p].Dead?
  }

  lemma CallingLess(ss: seq<State>, xs: seq<Step>, a: nat, k: nat, p: nat, d: Choice)
    requires Calling(ss, xs, a, k, p, d) && a + 1 < k
    ensures Calling(ss, xs, a, k - 1, p, d)
  {
  }

  /** Where a call begins. */
  function Entry(d: Choice): (pc: PC) {
    match d
    case DoFork => ForkScan(0)
    case DoExit => ExitStart
    case DoWait => WaitStart
    case DoKill(pid) => KillScan(pid, 0)
    case DoAcquire(l) => AcqStart(l)
    case DoRelease(l) => RelStart(l)
    case _ => Idle
  }

  lemma Begun(ss: seq<State>, xs: seq<Step>, a: nat, k: nat, p: nat, d: Choice)
    requires Calling(ss, xs, a, k, p, d) && k == a + 1
    ensures ss[k].pcs[p] == Entry(d)
  {
    RanIs(ss, xs);
    assert Next(ss[a], xs[a], ss[k]);
  }

  lemma {:induction false} During(ss: seq<State>, xs: seq<Step>, a: nat, k: nat, p: nat, d: Choice)
    requires Calling(ss, xs, a, k, p, d)
    ensures p < |ss[k].procs| == |ss[k].pcs| && InCall(d, p, ss[k].pcs[p])
    decreases k
  {
    RanIs(ss, xs);
    assert Next(ss[k - 1], xs[k - 1], ss[k]);
    RunCalls(ss, xs, k - 1);
    if k == a + 1 {
      CallBegins(ss[a], xs[a].c, p, d);
    } else {
      CallingLess(ss, xs, a, k, p, d);
      During(ss, xs, a, k - 1, p, d);
      CallStays(ss[k - 1], xs[k - 1], ss[k], p, d);
    }
  }

  /** One moment of a call: the thread takes a step, or gets a lock, or stays where it is. */
  lemma Goes(ss: seq<State>, xs: seq<Step>, a: nat, k: nat, p: nat, d: Choice)
    requires Calling(ss, xs, a, k, p, d) && k < |xs|
    ensures Shape(ss[k]) && p < |ss[k].procs| == |ss[k + 1].procs| == |ss[k + 1].pcs| && InCall(d, p, ss[k].pcs[p])
    ensures if xs[k].Thread? && xs[k].p == p
            then CanWork(ss[k], xs[k].c, p, xs[k].d) && InRange(ss[k], p, Work(ss[k], p, xs[k].d))
                 && ss[k + 1] == Perform(ss[k], xs[k].c, p, Work(ss[k], p, xs[k].d))
            else ss[k + 1].pcs[p] == ss[k].pcs[p]
                 || (Wants(|ss[k].procs|, p, ss[k].pcs[p]).Some? && ss[k + 1].pcs[p] == Acquired(ss[k].pcs[p]))
  {
    RanIs(ss, xs);
    assert Next(ss[k], xs[k], ss[k + 1]);
    RunCalls(ss, xs, k);
    During(ss, xs, a, k, p, d);
    if xs[k].Sched? || xs[k].p != p { PcStays(ss[k], xs[k], ss[k + 1], p); }
  }

  /** Where calls return from. */
  predicate Leaves(n: nat, pc: PC, d: Choice) {
    match pc
    case ForkScan(i) => i == n
    case ForkCopy(_) => d.Fail?
    case ForkRun(_) => true
    case WaitRel(_) => true
    case KillScan(_, i) => i == n
    case KillTest(_, _) => true
    case AcqRel(_) => true
    case RelDone(_) => true
    case _ => false
  }

  /** The step that returns is one of the thread itself, from one of those places. */
  lemma Returning(ss: seq<State>, xs: seq<Step>, a: nat, k: nat, p: nat, d: Choice)
    requires Calling(ss, xs, a, k, p, d) && k < |xs| && p < |ss[k + 1].pcs| && ss[k + 1].pcs[p].Idle?
    ensures Inv(ss[k]) && CallInv(ss[k]) && p < |ss[k].procs| && InCall(d, p, ss[k].pcs[p])
    ensures xs[k].Thread? && xs[k].p == p && CanWork(ss[k], xs[k].c, p, xs[k].d) && Work(ss[k], p, xs[k].d).pc.Idle?
    ensures Leaves(|ss[k].procs|, ss[k].pcs[p], xs[k].d) && CallOk(ss[k], p, ss[k].pcs[p])
    ensures InRange(ss[k], p, Work(ss[k], p, xs[k].d)) && ss[k + 1]
            == Perform(ss[k], xs[k].c, p, Work(ss[k], p, xs[k].d))
  {
    RanIs(ss, xs);
    assert Next(ss[k], xs[k], ss[k + 1]);
    RunCalls(ss, xs, k);
    During(ss, xs, a, k, p, d);
    if xs[k].Sched? || xs[k].p != p {
      PcStays(ss[k], xs[k], ss[k + 1], p);
    } else if xs[k].Acquire? {
      CallAcquires(|ss[k].procs|, p, ss[k].pcs[p], d);
    } else {
      LeavesIs(ss[k], xs[k].c, p, xs[k].d, d);
    }
  }

  lemma LeavesIs(s: State, c: nat, p: nat, d: Choice, d0: Choice)
    requires Shape(s) && CanWork(s, c, p, d) && InCall(d0, p, s.pcs[p]) && !Base(s.pcs[p]).Idle?
             && Work(s, p, d).pc.Idle?
    ensures Leaves(|s.procs|, s.pcs[p], d)
  {
    assert PcOk(|s.procs|, |s.slocks|, s.pcs[p]);
  }

  // --------------------------------------------------------------- sleep-locks

  /** acquiresleep returns with the sleep-lock held by the caller, whoever wanted it meanwhile. */
  lemma AcquireReturns(ss: seq<State>, xs: seq<Step>, a: nat, k: nat, p: nat, l: nat)
    requires Calling(ss, xs, a, k, p, DoAcquire(l)) && k < |xs| && p < |ss[k + 1].pcs| && ss[k + 1].pcs[p].Idle?
    ensures l < |ss[k + 1].slocks| == |ss[k + 1].inside|
    ensures ss[k + 1].slocks[l] == SLock(true, p) && ss[k + 1].inside[l] == {p}
  {
    Returning(ss, xs, a, k, p, DoAcquire(l));
    RanIs(ss, xs);
    RunInv(ss, xs, k + 1);
  }

  /** releasesleep returns having given it up; nobody is left asleep on it. */
  lemma ReleaseReturns(ss: seq<State>, xs: seq<Step>, a: nat, k: nat, p: nat, l: nat, s': State)
    requires Calling(ss, xs, a, k, p, DoRelease(l)) && k < |xs| && s' == ss[k + 1] && p < |s'.pcs| && s'.pcs[p].Idle?
    ensures l < |s'.slocks| == |s'.inside| && !s'.slocks[l].locked && s'.inside[l] == {}
    ensures Shape(s') && forall x :: 0 <= x < |s'.procs| ==> !InSleep(s', x, LockChan(l))
  {
    Returning(ss, xs, a, k, p, DoRelease(l));
    RanIs(ss, xs);
    RunInv(ss, xs, k + 1);
    assert ss[k].pcs[p] == RelDone(l);
    forall x | 0 <= x < |s'.procs| ensures !InSleep(s', x, LockChan(l)) {
      FreeLockNoSleeper(ss, xs, k + 1, l, x);
    }
  }

  // --------------------------------------------------------------------- kwait

  /** Step `m` of the run is one in which `p` reaps its child, whose pid is `pid`. */
  ghost predicate ReapsAt(ss: seq<State>, xs: seq<Step>, m: nat, p: nat, pid: nat)
    requires |ss| == |xs| + 1 && m < |xs|
  {
    && Shape(ss[m]) && xs[m].Thread? && xs[m].p == p && PR.Reaps(ss[m], xs[m]) == Some(pid)
    && var x := Work(ss[m], p, xs[m].d).j;
       x < |ss[m].procs| && ss[m].procs[x].parent == Some(p) && ss[m].procs[x].state == ZOMBIE
           && ss[m].procs[x].pid == pid
  }

  /** What has happened in the call, where it has an outcome. */
  ghost predicate WaitStory(ss: seq<State>, xs: seq<Step>, a: nat, k: nat, p: nat, pc: PC)
    requires k < |ss| == |xs| + 1
  {
    var r := if pc.WaitReaped? || pc.WaitRel? then pc.r else NoChild;
    match r
    case Child(pid) => exists m :: a < m < k && ReapsAt(ss, xs, m, p, pid)
    case NoCopy => exists m :: a < m < k && xs[m].Thread? && xs[m].p == p && xs[m].d == Fail
    case _ => forall m, pid :: a < m < k ==> !ReapsAt(ss, xs, m, p, pid)
  }

  /** A step of kwait reaps exactly when it comes to have that outcome. */
  lemma ReapStep(s: State, c: nat, p: nat, d: Choice)
    requires Inv(s) && CanWork(s, c, p, d) && InCall(DoWait, p, s.pcs[p])
    ensures var e := Work(s, p, d);
            && (e.reap ==> s.pcs[p].WaitTest? && e.pc == WaitReaped(s.pcs[p].i, Child(s.procs[s.pcs[p].i].pid)))
            && (e.reap ==> e.j < |s.procs| && s.procs[e.j].parent == Some(p) && s.procs[e.j].state == ZOMBIE
                           && e.pc.r == Child(s.procs[e.j].pid))
            && (e.pc.WaitReaped? && e.pc.r.NoCopy? ==> d == Fail)
            && (e.pc.WaitReaped? && e.pc.r.Child? ==> e.reap)
            && (e.pc.WaitRel? && (e.pc.r.Child? || e.pc.r.NoCopy?) ==> s.pcs[p].WaitReaped? && s.pcs[p].r == e.pc.r)
            && (s.pcs[p].WaitReaped? ==> e.pc == WaitRel(s.pcs[p].r))
            && (!e.pc.WaitReaped? ==> !e.reap)
  {
    WorkLifeFacts(s, c, p, p);
    assert PcOk(|s.procs|, |s.slocks|, s.pcs[p]);
  }

  /** The outcome that a program counter carries. */
  function OutcomeOf(pc: PC): (r: Outcome) {
    if pc.WaitReaped? || pc.WaitRel? then pc.r else NoChild
  }

  lemma StoryLater(ss: seq<State>, xs: seq<Step>, a: nat, k: nat, p: nat, pc: PC, pc': PC)
    requires |ss| == |xs| + 1 && a < k < |xs| && WaitStory(ss, xs, a, k, p, pc)
    requires OutcomeOf(pc').Child? || OutcomeOf(pc').NoCopy? ==> OutcomeOf(pc') == OutcomeOf(pc)
    requires OutcomeOf(pc).Child? || OutcomeOf(pc).NoCopy? ==> OutcomeOf(pc') == OutcomeOf(pc)
    requires forall pid :: !ReapsAt(ss, xs, k, p, pid)
    ensures WaitStory(ss, xs, a, k + 1, p, pc')
  {
    match OutcomeOf(pc)
    case Child(pid) =>
      var m :| a < m < k && ReapsAt(ss, xs, m, p, pid);
    case NoCopy =>
      var m :| a < m < k && xs[m].Thread? && xs[m].p == p && xs[m].d == Fail;
    case _ =>
      forall m, pid | a < m < k + 1 ensures !ReapsAt(ss, xs, m, p, pid) {}
  }

  lemma ReapAt(ss: seq<State>, xs: seq<Step>, k: nat, p: nat, c: nat, d: Choice)
    requires Ran(ss, xs) && k < |xs| && xs[k] == Thread(c, p, d) && Shape(ss[k]) && CanWork(ss[k], c, p, d)
    requires InCall(DoWait, p, ss[k].pcs[p])
    ensures var e, pc := Work(ss[k], p, d), ss[k].pcs[p];
            && (if e.reap then e.pc.WaitReaped? && e.pc.r.Child? && ReapsAt(ss, xs, k, p, e.pc.r.pid)
                else forall pid :: !ReapsAt(ss, xs, k, p, pid))
            && (!e.reap && e.pc.WaitReaped? ==> e.pc.r.NoCopy? && d == Fail)
            && (!e.reap && !e.pc.WaitReaped? && !e.pc.Idle? ==>
                  (OutcomeOf(pc).Child? || OutcomeOf(pc).NoCopy? || OutcomeOf(e.pc).Child?
                   || OutcomeOf(e.pc).NoCopy? ==>
                     OutcomeOf(e.pc) == OutcomeOf(pc)))
  {
    RanIs(ss, xs);
    RunCalls(ss, xs, k);
    ReapStep(ss[k], c, p, d);
  }

  lemma StoryOn(ss: seq<State>, xs: seq<Step>, a: nat, k: nat, p: nat)
    requires Calling(ss, xs, a, k + 1, p, DoWait) && a < k && WaitStory(ss, xs, a, k, p, ss[k].pcs[p])
    ensures WaitStory(ss, xs, a, k + 1, p, ss[k + 1].pcs[p])
  {
    CallingLess(ss, xs, a, k + 1, p, DoWait);
    Goes(ss, xs, a, k, p, DoWait);
    var pc, pc' := ss[k].pcs[p], ss[k + 1].pcs[p];
    if xs[k].Thread? && xs[k].p == p {
      ReapAt(ss, xs, k, p, xs[k].c, xs[k].d);
      if !Work(ss[k], p, xs[k].d).reap && !pc'.WaitReaped? { StoryLater(ss, xs, a, k, p, pc, pc'); }
    } else {
      StoryLater(ss, xs, a, k, p, pc, pc');
    }
  }

  lemma {:induction false} WaitTells(ss: seq<State>, xs: seq<Step>, a: nat, k: nat, p: nat)
    requires Calling(ss, xs, a, k, p, DoWait)
    ensures WaitStory(ss, xs, a, k, p, ss[k].pcs[p])
    decreases k
  {
    if k == a + 1 {
      Begun(ss, xs, a, k, p, DoWait);
    } else {
      var n := k - 1;
      CallingLess(ss, xs, a, k, p, DoWait);
      WaitTells(ss, xs, a, n, p);
      StoryOn(ss, xs, a, n, p);
    }
  }

  /**
   * kwait returns with wait_lock still held, and with one of: the pid of a ZOMBIE child of its own, which it has
   * reaped;
   * -1 because no slot is a child of the caller; -1 because the caller has been killed; -1 because copyout failed.
   * Where
   * it returns -1 it has reaped nobody.
   */
  lemma WaitReturns(ss: seq<State>, xs: seq<Step>, a: nat, k: nat, p: nat) returns (r: Outcome)
    requires Calling(ss, xs, a, k, p, DoWait) && k < |xs| && p < |ss[k + 1].pcs| && ss[k + 1].pcs[p].Idle?
    ensures Shape(ss[k]) && p < |ss[k].procs| && xs[k].Thread? && xs[k].c < |ss[k].cpus|
    ensures ss[k].pcs[p] == WaitRel(r) && WaitLock in ss[k].locks && ss[k].locks[WaitLock] == xs[k].c
    ensures r.NoChild? ==> forall x :: 0 <= x < |ss[k].procs| ==> ss[k].procs[x].parent != Some(p)
    ensures r.WasKilled? ==> ss[k].procs[p].killed
    ensures r.NoCopy? ==> exists m :: a < m < k && xs[m].Thread? && xs[m].p == p && xs[m].d == Fail
    ensures r.Child? ==> exists m :: a < m < k && ReapsAt(ss, xs, m, p, r.pid)
    ensures r.NoChild? || r.WasKilled? ==> forall m, pid :: a < m < k ==> !ReapsAt(ss, xs, m, p, pid)
  {
    Returning(ss, xs, a, k, p, DoWait);
    WaitTells(ss, xs, a, k, p);
    r := ss[k].pcs[p].r;
    assert WaitLock in CpuHolds(ss[k], xs[k].c);
  }

  /** Why thread `p` may go to sleep on `ch`. */
  ghost predicate Reason(s: State, p: nat, ch: Chan)
    requires p < |s.procs|
  {
    match ch
    case ProcChan(q) =>
      && q == p && !s.procs[p].killed && HasKid(s, p, |s.procs|)
      && forall x :: 0 <= x < |s.procs| && s.procs[x].parent == Some(p) ==> s.procs[x].state != ZOMBIE
    case LockChan(l) => l < |s.slocks| && s.slocks[l].locked
    case NoChan => false
  }

  lemma WorkSleeps(s: State, c: nat, p: nat, d: Choice)
    requires Shape(s) && CanWork(s, c, p, d) && CallOk(s, p, s.pcs[p]) && LifeFacts(s, p, p)
    requires var pc := Work(s, p, d).pc; pc.Sleep? && pc.stage == 0 && pc != s.pcs[p]
    ensures Reason(s, p, Work(s, p, d).pc.ch)
  {
    assert PcOk(|s.procs|, |s.slocks|, s.pcs[p]);
  }

  /** No step puts another thread to sleep. */
  lemma OwnSleep(s: State, x: Step, s': State, p: nat)
    requires Next(s, x, s') && p < |s.pcs| && p < |s'.pcs| && s'.pcs[p].Sleep? && s'.pcs[p].stage == 0
    requires s'.pcs[p] != s.pcs[p]
    ensures x.Thread? && x.p == p && CanWork(s, x.c, p, x.d) && Work(s, p, x.d).pc == s'.pcs[p]
  {
    if x.Thread? { ThreadKinds(s, x.p, x.d); }
  }

  lemma ThreadKinds(s: State, p: nat, d: Choice)
    requires Shape(s) && p < |s.procs|
    ensures var e := Work(s, p, d); e.thread.Some? ==> e.thread.value.Forkret? || e.thread.value.Unborn?
  {
  }

  /**
   * A thread goes to sleep for a reason: in kwait, having children, none of them a ZOMBIE, and not killed; in
   * acquiresleep, the lock being locked.
   */
  lemma SleepsForReason(ss: seq<State>, xs: seq<Step>, k: nat, p: nat)
    requires Run(ss, xs) && k < |xs| && p < |ss[k].pcs| && p < |ss[k + 1].pcs|
    requires ss[k + 1].pcs[p].Sleep? && ss[k + 1].pcs[p].stage == 0 && ss[k].pcs[p] != ss[k + 1].pcs[p]
    ensures p < |ss[k].procs| && Reason(ss[k], p, ss[k + 1].pcs[p].ch)
  {
    assert Next(ss[k], xs[k], ss[k + 1]);
    OwnSleep(ss[k], xs[k], ss[k + 1], p);
    OwnFacts(ss, xs, k, p);
    WorkSleeps(ss[k], xs[k].c, p, xs[k].d);
  }

  lemma OwnFacts(ss: seq<State>, xs: seq<Step>, k: nat, p: nat)
    requires Run(ss, xs) && k < |xs| && xs[k].Thread? && xs[k].p == p && p < |ss[k].procs|
    ensures Shape(ss[k]) && CallOk(ss[k], p, ss[k].pcs[p]) && LifeFacts(ss[k], p, p)
  {
    assert Next(ss[k], xs[k], ss[k + 1]);
    RunCalls(ss, xs, k);
    WorkLifeFacts(ss[k], xs[k].c, p, p);
  }

  // --------------------------------------------------------------------- kkill

  /** Between the call and moment `k`, slot `j` has been seen with another pid. */
  ghost predicate SeenOther(ss: seq<State>, a: nat, k: nat, pid: nat, j: nat) {
    exists m :: a < m <= k < |ss| && j < |ss[m].procs| && ss[m].procs[j].pid != pid
  }

  /** How far kkill's scan has got. */
  function Passed(pc: PC): (i: nat) {
    match Base(pc)
    case KillScan(_, i) => i
    case KillTest(_, i) => i
    case ForkScan(i) => i
    case ForkTest(i) => i
    case _ => 0
  }

  lemma KillStep(s: State, c: nat, p: nat, d: Choice, pid: nat)
    requires Shape(s) && CanWork(s, c, p, d) && InCall(DoKill(pid), p, s.pcs[p]) && !Work(s, p, d).pc.Idle?
    ensures Passed(Work(s, p, d).pc) == Passed(s.pcs[p])
            || (Passed(s.pcs[p]) < |s.procs| && Passed(Work(s, p, d).pc) == Passed(s.pcs[p]) + 1
                && s.procs[Passed(s.pcs[p])].pid != pid)
  {
    assert PcOk(|s.procs|, |s.slocks|, s.pcs[p]);
  }

  lemma KillOn(ss: seq<State>, xs: seq<Step>, a: nat, k: nat, p: nat, pid: nat)
    requires Calling(ss, xs, a, k + 1, p, DoKill(pid)) && a < k
    ensures var i, i' := Passed(ss[k].pcs[p]), Passed(ss[k + 1].pcs[p]);
            i' <= i || (i' == i + 1 && i < |ss[k].procs| && ss[k].procs[i].pid != pid)
  {
    CallingLess(ss, xs, a, k + 1, p, DoKill(pid));
    Goes(ss, xs, a, k, p, DoKill(pid));
    if xs[k].Thread? && xs[k].p == p { KillStep(ss[k], xs[k].c, p, xs[k].d, pid); }
  }

  lemma {:induction false} KillTells(ss: seq<State>, xs: seq<Step>, a: nat, k: nat, p: nat, pid: nat, j: nat)
    requires Calling(ss, xs, a, k, p, DoKill(pid)) && j < Passed(ss[k].pcs[p])
    ensures SeenOther(ss, a, k, pid, j)
    decreases k
  {
    if k == a + 1 {
      Begun(ss, xs, a, k, p, DoKill(pid));
    } else {
      var n := k - 1;
      KillOn(ss, xs, a, n, p, pid);
      if j < Passed(ss[n].pcs[p]) {
        CallingLess(ss, xs, a, k, p, DoKill(pid));
        KillTells(ss, xs, a, n, p, pid, j);
        OtherLater(ss, a, n, pid, j);
      } else {
        OtherNow(ss, a, n, pid, j);
      }
    }
  }

  lemma OtherLater(ss: seq<State>, a: nat, k: nat, pid: nat, j: nat)
    requires k + 1 < |ss| && SeenOther(ss, a, k, pid, j)
    ensures SeenOther(ss, a, k + 1, pid, j)
  {
    var m :| a < m <= k && j < |ss[m].procs| && ss[m].procs[j].pid != pid;
  }

  lemma OtherNow(ss: seq<State>, a: nat, k: nat, pid: nat, j: nat)
    requires a < k && k + 1 < |ss| && j < |ss[k].procs| && ss[k].procs[j].pid != pid
    ensures SeenOther(ss, a, k + 1, pid, j)
  {
  }

  /** What being killed does to a process: the flag, and no more sleep. */
  function Struck(q: Proc): (r: Proc) {
    q.(killed := true, state := if q.state == SLEEPING then RUNNABLE else q.state)
  }

  /** kkill returns having struck a process with that pid, or having seen each slot with another pid. */
  lemma KillReturns(ss: seq<State>, xs: seq<Step>, a: nat, k: nat, p: nat, pid: nat) returns (i: nat)
    requires Calling(ss, xs, a, k, p, DoKill(pid)) && k < |xs| && p < |ss[k + 1].pcs| && ss[k + 1].pcs[p].Idle?
    ensures i <= |ss[k].procs| == |ss[k + 1].procs|
    ensures i < |ss[k].procs| ==>
              ss[k].procs[i].pid == pid && ss[k + 1].procs == ss[k].procs[i := Struck(ss[k].procs[i])]
    ensures i == |ss[k].procs| ==>
              ss[k + 1].procs == ss[k].procs && forall j :: 0 <= j < |ss[k].procs| ==> SeenOther(ss, a, k, pid, j)
  {
    Returning(ss, xs, a, k, p, DoKill(pid));
    i := Passed(ss[k].pcs[p]);
    if i == |ss[k].procs| {
      forall j | 0 <= j < |ss[k].procs| ensures SeenOther(ss, a, k, pid, j) { KillTells(ss, xs, a, k, p, pid, j); }
    }
  }

  // --------------------------------------------------------------------- kfork

  /** Between the call and moment `k`, slot `j` has been seen in use. */
  ghost predicate SeenBusy(ss: seq<State>, a: nat, k: nat, j: nat) {
    exists m :: a < m <= k < |ss| && j < |ss[m].procs| && ss[m].procs[j].state != UNUSED
  }

  /** Slot `t` has been taken in this call, when it was unused, and has got the next pid. */
  ghost predicate Claimed(ss: seq<State>, a: nat, k: nat, t: nat) {
    exists m :: a < m < k < |ss| && t < |ss[m].procs| && t < |ss[k].procs| && ss[m].procs[t].state == UNUSED
                && ss[k].procs[t].pid == ss[m].nextpid
  }

  lemma ForkStep(s: State, c: nat, p: nat, d: Choice)
    requires Shape(s) && CanWork(s, c, p, d) && InCall(DoFork, p, s.pcs[p]) && InRange(s, p, Work(s, p, d))
    ensures var e := Work(s, p, d);
            && (Passed(e.pc) <= Passed(s.pcs[p])
                || (Passed(s.pcs[p]) < |s.procs| && Passed(e.pc) == Passed(s.pcs[p]) + 1
                    && s.procs[Passed(s.pcs[p])].state != UNUSED))
            && (Target(e.pc).Some? && Target(e.pc) != Target(s.pcs[p]) ==>
                  Target(e.pc) == Some(e.j) && s.procs[e.j].state == UNUSED && e.q.pid == s.nextpid)
  {
    assert PcOk(|s.procs|, |s.slocks|, s.pcs[p]);
  }

  lemma ForkOn(ss: seq<State>, xs: seq<Step>, a: nat, k: nat, p: nat)
    requires Calling(ss, xs, a, k + 1, p, DoFork) && a < k
    ensures var i, i' := Passed(ss[k].pcs[p]), Passed(ss[k + 1].pcs[p]);
            i' <= i || (i' == i + 1 && i < |ss[k].procs| && ss[k].procs[i].state != UNUSED)
  {
    CallingLess(ss, xs, a, k + 1, p, DoFork);
    Goes(ss, xs, a, k, p, DoFork);
    if xs[k].Thread? && xs[k].p == p { ForkStep(ss[k], xs[k].c, p, xs[k].d); }
  }

  lemma {:induction false} ForkTells(ss: seq<State>, xs: seq<Step>, a: nat, k: nat, p: nat, j: nat)
    requires Calling(ss, xs, a, k, p, DoFork) && j < Passed(ss[k].pcs[p])
    ensures SeenBusy(ss, a, k, j)
    decreases k
  {
    if k == a + 1 {
      Begun(ss, xs, a, k, p, DoFork);
    } else {
      var n := k - 1;
      ForkOn(ss, xs, a, n, p);
      if j < Passed(ss[n].pcs[p]) {
        CallingLess(ss, xs, a, k, p, DoFork);
        ForkTells(ss, xs, a, n, p, j);
        BusyLater(ss, a, n, j);
      } else {
        BusyNow(ss, a, n, j);
      }
    }
  }

  lemma BusyLater(ss: seq<State>, a: nat, k: nat, j: nat)
    requires k + 1 < |ss| && SeenBusy(ss, a, k, j)
    ensures SeenBusy(ss, a, k + 1, j)
  {
    var m :| a < m <= k && j < |ss[m].procs| && ss[m].procs[j].state != UNUSED;
  }

  lemma BusyNow(ss: seq<State>, a: nat, k: nat, j: nat)
    requires a < k && k + 1 < |ss| && j < |ss[k].procs| && ss[k].procs[j].state != UNUSED
    ensures SeenBusy(ss, a, k + 1, j)
  {
  }

  /** A process in use keeps its pid. */
  lemma PidStays(s: State, x: Step, s': State, t: nat)
    requires Inv(s) && Next(s, x, s') && t < |s.procs| == |s'.procs| && s.procs[t].state != UNUSED
    requires s'.procs[t].state != UNUSED
    ensures s'.procs[t].pid == s.procs[t].pid
  {
    if x.Thread? {
      var e := Work(s, x.p, x.d);
      WorkFacts(s, x.c, x.p);
      WorkLifeFacts(s, x.c, x.p, e.j);
      WorkRight(s, x.c, x.p, x.d);
    }
  }

  lemma ClaimStays(ss: seq<State>, a: nat, k: nat, t: nat)
    requires k + 1 < |ss| && Claimed(ss, a, k, t) && t < |ss[k + 1].procs|
             && ss[k + 1].procs[t].pid == ss[k].procs[t].pid
    ensures Claimed(ss, a, k + 1, t)
  {
    var m :| a < m < k && t < |ss[m].procs| && ss[m].procs[t].state == UNUSED && ss[k].procs[t].pid == ss[m].nextpid;
  }

  lemma ClaimNow(ss: seq<State>, a: nat, k: nat, t: nat)
    requires a < k && k + 1 < |ss| && t < |ss[k].procs| && t < |ss[k + 1].procs| && ss[k].procs[t].state == UNUSED
    requires ss[k + 1].procs[t].pid == ss[k].nextpid
    ensures Claimed(ss, a, k + 1, t)
  {
  }

  lemma {:induction false} ForkClaims(ss: seq<State>, xs: seq<Step>, a: nat, k: nat, p: nat, t: nat)
    requires Calling(ss, xs, a, k, p, DoFork) && Target(ss[k].pcs[p]) == Some(t)
    ensures Claimed(ss, a, k, t)
    decreases k
  {
    if k == a + 1 {
      Begun(ss, xs, a, k, p, DoFork);
    } else {
      var n := k - 1;
      CallingLess(ss, xs, a, k, p, DoFork);
      if Target(ss[n].pcs[p]) == Some(t) { ForkClaims(ss, xs, a, n, p, t); }
      ClaimOn(ss, xs, a, n, p, t);
    }
  }

  lemma ClaimOn(ss: seq<State>, xs: seq<Step>, a: nat, k: nat, p: nat, t: nat)
    requires Calling(ss, xs, a, k + 1, p, DoFork) && a < k && Target(ss[k + 1].pcs[p]) == Some(t)
    requires Target(ss[k].pcs[p]) == Some(t) ==> Claimed(ss, a, k, t)
    ensures Claimed(ss, a, k + 1, t)
  {
    CallingLess(ss, xs, a, k + 1, p, DoFork);
    Goes(ss, xs, a, k, p, DoFork);
    if xs[k].Thread? && xs[k].p == p { ForkStep(ss[k], xs[k].c, p, xs[k].d); }
    if Target(ss[k].pcs[p]) == Some(t) {
      TargetPid(ss, xs, k, p, t);
      ClaimStays(ss, a, k, t);
    } else {
      ClaimNow(ss, a, k, t);
    }
  }

  lemma TargetUsed(ss: seq<State>, xs: seq<Step>, k: nat, p: nat, t: nat)
    requires Ran(ss, xs) && k < |ss| && p < |ss[k].pcs| && Target(ss[k].pcs[p]) == Some(t)
    ensures t < |ss[k].procs| && ss[k].procs[t].state == USED
  {
    RanIs(ss, xs);
    RunInv(ss, xs, k);
  }

  lemma PidKept(ss: seq<State>, xs: seq<Step>, k: nat, t: nat)
    requires Ran(ss, xs) && k < |xs| && t < |ss[k].procs| && t < |ss[k + 1].procs|
    requires ss[k].procs[t].state != UNUSED && ss[k + 1].procs[t].state != UNUSED
    ensures ss[k + 1].procs[t].pid == ss[k].procs[t].pid
  {
    RanIs(ss, xs);
    assert Next(ss[k], xs[k], ss[k + 1]);
    RunInv(ss, xs, k);
    PidStays(ss[k], xs[k], ss[k + 1], t);
  }

  lemma TargetPid(ss: seq<State>, xs: seq<Step>, k: nat, p: nat, t: nat)
    requires Ran(ss, xs) && k < |xs| && p < |ss[k].pcs| && p < |ss[k + 1].pcs|
    requires Target(ss[k].pcs[p]) == Some(t) && Target(ss[k + 1].pcs[p]) == Some(t)
    ensures t < |ss[k].procs| && t < |ss[k + 1].procs| && ss[k + 1].procs[t].pid == ss[k].procs[t].pid
  {
    TargetUsed(ss, xs, k, p, t);
    TargetUsed(ss, xs, k + 1, p, t);
    PidKept(ss, xs, k, t);
  }

  /**
   * kfork returns having made a process of an unused slot: RUNNABLE, with a new pid, the caller for its parent, and a
   * thread about to run; or having freed the slot again, when memory ran out; or having seen every slot in use.
   */
  lemma ForkReturns(ss: seq<State>, xs: seq<Step>, a: nat, k: nat, p: nat)
    requires Calling(ss, xs, a, k, p, DoFork) && k < |xs| && p < |ss[k + 1].pcs| && ss[k + 1].pcs[p].Idle?
    ensures |ss[k + 1].procs| == |ss[k].procs| == |ss[k].pcs| == |ss[k + 1].pcs| && xs[k].Thread?
    ensures var s, s' := ss[k], ss[k + 1];
            s.pcs[p].ForkRun? ==>
              var t := s.pcs[p].np;
              && t < |s.procs| && Claimed(ss, a, k, t) && s'.pcs[t] == Forkret && s.procs[t].parent == Some(p)
              && s'.procs == s.procs[t := s.procs[t].(state := RUNNABLE)]
    ensures var s, s' := ss[k], ss[k + 1];
            s.pcs[p].ForkCopy? ==>
              var t := s.pcs[p].np;
              t < |s.procs| && xs[k].d == Fail && Claimed(ss, a, k, t) && s'.pcs[t] == Unborn
                  && s'.procs == s.procs[t := Freed]
    ensures var s, s' := ss[k], ss[k + 1];
            s.pcs[p].ForkRun? || s.pcs[p].ForkCopy?
            || (s'.procs == s.procs && forall j :: 0 <= j < |s.procs| ==> SeenBusy(ss, a, k, j))
  {
    Returning(ss, xs, a, k, p, DoFork);
    var pc := ss[k].pcs[p];
    assert ChildOk(ss[k], p, pc);
    if Target(pc).Some? {
      ForkClaims(ss, xs, a, k, p, Target(pc).value);
    } else {
      forall j | 0 <= j < |ss[k].procs| ensures SeenBusy(ss, a, k, j) { ForkTells(ss, xs, a, k, p, j); }
    }
  }

  // --------------------------------------------------------------------- kexit

  /** kexit does not return. */
  lemma ExitNeverReturns(ss: seq<State>, xs: seq<Step>, a: nat, k: nat, p: nat)
    requires Calling(ss, xs, a, k, p, DoExit) && k < |xs| && p < |ss[k + 1].pcs|
    ensures !ss[k + 1].pcs[p].Idle?
  {
    if ss[k + 1].pcs[p].Idle? { Returning(ss, xs, a, k, p, DoExit); }
  }

  /** A process whose kexit has come to its end is a ZOMBIE, and nobody's parent. */
  lemma ExitLeaves(ss: seq<State>, xs: seq<Step>, k: nat, p: nat, s: State)
    requires Run(ss, xs) && k < |ss| && s == ss[k] && p < |s.pcs| && (s.pcs[p].Dead? || s.pcs[p].ExitSched?)
    ensures |s.procs| == |s.pcs| && s.procs[p].state == ZOMBIE
    ensures forall x :: 0 <= x < |s.procs| ==> s.procs[x].parent != Some(p)
  {
    RunCalls(ss, xs, k);
    assert ProcOk(s, p);
    forall x | 0 <= x < |s.procs| ensures s.procs[x].parent != Some(p) { assert ParentOk(s, x); }
  }

  // ----------------------------------------------------------- life of a process

  /** The state of process `i` after a step: who changes it, when, and to what. */
  ghost function Fate(s: State, x: Step, i: nat): (st: ProcState)
    requires Shape(s) && i < |s.procs| && (!x.Sched? ==> x.p < |s.pcs|) && (x.Sched? ==> x.c < |s.cpus|)
  {
    var q := s.procs[i];
    if x.Sched? then
      if s.cpus[x.c].sched == Check(i) && q.state == RUNNABLE then RUNNING else q.state
    else if x.Acquire? || x.d.Preempt? || (!x.d.Go? && !x.d.Fail?) then q.state
    else
      match s.pcs[x.p]
      case ForkTest(t) => if t == i && q.state == UNUSED then USED else q.state
      case ForkCopy(t) => if t == i && x.d.Fail? then UNUSED else q.state
      case ForkRun(t) => if t == i then RUNNABLE else q.state
      case Yield(stage, _) => if x.p == i && stage == 1 then RUNNABLE else q.state
      case Sleep(stage, _) => if x.p == i && stage == 2 then SLEEPING else q.state
      case Wake(stage, ch, t, _) =>
        if t == i && stage == 1 && q.state == SLEEPING && q.chan == ch then RUNNABLE else q.state
      case KillTest(pid, t) => if t == i && q.pid == pid && q.state == SLEEPING then RUNNABLE else q.state
      case ExitZombie => if x.p == i then ZOMBIE else q.state
      case WaitTest(t) => if t == i && q.state == ZOMBIE && !x.d.Fail? then UNUSED else q.state
      case _ => q.state
  }

  /** The parent of process `i` after a step: set by kfork, changed by kexit of the parent, cleared when it is freed. */
  ghost function Family(s: State, x: Step, i: nat): (par: Option<nat>)
    requires Shape(s) && i < |s.procs| && (!x.Sched? ==> x.p < |s.pcs|)
  {
    var q := s.procs[i];
    if !x.Thread? || (!x.d.Go? && !x.d.Fail?) then q.parent
    else
      match s.pcs[x.p]
      case ForkSet(t) => if t == i then Some(x.p) else q.parent
      case ForkCopy(t) => if t == i && x.d.Fail? then None else q.parent
      case Reparent(t) => if t == i && q.parent == Some(x.p) then Some(INIT) else q.parent
      case WaitTest(t) => if t == i && q.state == ZOMBIE && !x.d.Fail? then None else q.parent
      case _ => q.parent
  }

  /** The step makes slot `i` a new process, or frees it. */
  ghost predicate Claims(s: State, x: Step, i: nat)
    requires Shape(s) && i < |s.procs| && (!x.Sched? ==> x.p < |s.pcs|)
  {
    x.Thread? && x.d.Go? && s.pcs[x.p] == ForkTest(i) && s.procs[i].state == UNUSED
  }

  ghost predicate Clears(s: State, x: Step, i: nat)
    requires Shape(s) && i < |s.procs| && (!x.Sched? ==> x.p < |s.pcs|)
  {
    && x.Thread?
    && ((s.pcs[x.p] == ForkCopy(i) && x.d.Fail?) || (s.pcs[x.p] == WaitTest(i) && x.d.Go?
                                                     && s.procs[i].state == ZOMBIE))
  }

  /**
   * The other fields: the channel set by sleep and cleared after it, the flag set by kkill, the pid given by allocproc.
   */
  ghost function Rest(s: State, x: Step, i: nat): (r: (Chan, bool, nat))
    requires Shape(s) && i < |s.procs| && (!x.Sched? ==> x.p < |s.pcs|)
  {
    var q := s.procs[i];
    if Clears(s, x, i) then (NoChan, false, 0)
    else if Claims(s, x, i) then (q.chan, q.killed, s.nextpid)
    else if !x.Thread? || !x.d.Go? then (q.chan, q.killed, q.pid)
    else
      match s.pcs[x.p]
      case Sleep(stage, ch) =>
        (if x.p == i && stage == 2 then ch else if x.p == i && stage == 4 then NoChan else q.chan, q.killed, q.pid)
      case KillTest(pid, t) => (q.chan, q.killed || (t == i && q.pid == pid), q.pid)
      case _ => (q.chan, q.killed, q.pid)
  }

  lemma WorkFate(s: State, c: nat, p: nat, d: Choice, i: nat)
    requires Shape(s) && CanWork(s, c, p, d) && InRange(s, p, Work(s, p, d)) && i < |s.procs|
    ensures NewProc(s, Work(s, p, d), i).state == Fate(s, Thread(c, p, d), i)
  {
    assert PcOk(|s.procs|, |s.slocks|, s.pcs[p]);
  }

  lemma WorkFamily(s: State, c: nat, p: nat, d: Choice, i: nat)
    requires Shape(s) && CanWork(s, c, p, d) && InRange(s, p, Work(s, p, d)) && i < |s.procs|
    ensures NewProc(s, Work(s, p, d), i).parent == Family(s, Thread(c, p, d), i)
  {
    assert PcOk(|s.procs|, |s.slocks|, s.pcs[p]);
  }

  ghost predicate RestOk(s: State, c: nat, p: nat, d: Choice, i: nat)
    requires Shape(s) && p < |s.procs| && InRange(s, p, Work(s, p, d)) && i < |s.procs|
  {
    var q := NewProc(s, Work(s, p, d), i);
    (q.chan, q.killed, q.pid) == Rest(s, Thread(c, p, d), i)
  }

  lemma SlotRest(s: State, c: nat, p: nat, d: Choice, i: nat)
    requires Shape(s) && CanWork(s, c, p, d) && InRange(s, p, Work(s, p, d)) && i < |s.procs|
    requires PartOf(s.pcs[p], d) in {Forks, Starts, Reaps, Scans, Waits, Divert, Yields}
    ensures RestOk(s, c, p, d, i)
  {
    assert PcOk(|s.procs|, |s.slocks|, s.pcs[p]);
  }

  lemma OtherRest(s: State, c: nat, p: nat, d: Choice, i: nat)
    requires Shape(s) && CanWork(s, c, p, d) && InRange(s, p, Work(s, p, d)) && i < |s.procs|
    requires PartOf(s.pcs[p], d) !in {Forks, Starts, Reaps, Scans, Waits, Divert, Yields}
    ensures RestOk(s, c, p, d, i)
  {
    assert PcOk(|s.procs|, |s.slocks|, s.pcs[p]);
  }

  /** allocpid is called by allocproc, and by nobody else. */
  lemma WorkPids(s: State, c: nat, p: nat, d: Choice)
    requires Shape(s) && CanWork(s, c, p, d)
    ensures Work(s, p, d).newpid <==> exists i :: 0 <= i < |s.procs| && Claims(s, Thread(c, p, d), i)
  {
    assert PcOk(|s.procs|, |s.slocks|, s.pcs[p]);
    if s.pcs[p].ForkTest? && d.Go? && s.procs[s.pcs[p].i].state == UNUSED {
      assert Claims(s, Thread(c, p, d), s.pcs[p].i);
    }
  }

  lemma Lives(s: State, x: Step, s': State, i: nat)
    requires Next(s, x, s') && i < |s.procs|
    ensures |s'.procs| == |s.procs| && s'.procs[i].state == Fate(s, x, i) && s'.procs[i].parent == Family(s, x, i)
    ensures (s'.procs[i].chan, s'.procs[i].killed, s'.procs[i].pid) == Rest(s, x, i)
  {
    if x.Thread? {
      WorkFate(s, x.c, x.p, x.d, i);
      WorkFamily(s, x.c, x.p, x.d, i);
      if PartOf(s.pcs[x.p], x.d) in {Forks, Starts, Reaps, Scans, Waits, Divert, Yields} {
        SlotRest(s, x.c, x.p, x.d, i);
      } else {
        OtherRest(s, x.c, x.p, x.d, i);
      }
    }
  }

  /** Everything in the process table, step by step of every run. */
  lemma Lifecycle(ss: seq<State>, xs: seq<Step>, k: nat, i: nat, s: State, s': State)
    requires Run(ss, xs) && k < |xs| && s == ss[k] && s' == ss[k + 1] && i < |s.procs|
    ensures Shape(s) && i < |s'.procs| && (!xs[k].Sched? ==> xs[k].p < |s.pcs|) && (xs[k].Sched? ==> xs[k].c < |s.cpus|)
    ensures s'.procs[i].state == Fate(s, xs[k], i) && s'.procs[i].parent == Family(s, xs[k], i)
    ensures (s'.procs[i].chan, s'.procs[i].killed, s'.procs[i].pid) == Rest(s, xs[k], i)
    ensures s'.nextpid == s.nextpid + if exists t :: 0 <= t < |s.procs| && Claims(s, xs[k], t) then 1 else 0
  {
    assert Next(s, xs[k], s');
    Lives(s, xs[k], s', i);
    if xs[k].Thread? { WorkPids(s, xs[k].c, xs[k].p, xs[k].d); }
  }

  // --------------------------------------------------------------------- yield

  /** Thread `p` was preempted in step `a` and has been in yield ever since. */
  ghost predicate Yielding(ss: seq<State>, xs: seq<Step>, a: nat, k: nat, p: nat) {
    && Ran(ss, xs) && a < k < |ss| && xs[a].Thread? && xs[a].p == p && xs[a].d == Preempt
    && forall m :: a < m <= k ==> p < |ss[m].pcs| && ss[m].pcs[p].Yield?
  }

  ghost predicate SeenRunnable(ss: seq<State>, a: nat, k: nat, p: nat) {
    exists m :: a < m <= k < |ss| && p < |ss[m].procs| && ss[m].procs[p].state == RUNNABLE
  }

  /** One moment of a yield. */
  lemma YieldGoes(ss: seq<State>, xs: seq<Step>, k: nat, p: nat)
    requires Ran(ss, xs) && k < |xs| && p < |ss[k].pcs| && ss[k].pcs[p].Yield?
    ensures p < |ss[k + 1].pcs| == |ss[k + 1].procs| && !ss[k].pcs[p].k.Yield?
    ensures var y, pc' := ss[k].pcs[p], ss[k + 1].pcs[p];
            || pc' == y
            || (pc' == Yield(1, y.k) && y.stage == 0)
            || (pc' == Yield(2, y.k) && y.stage == 1 && ss[k + 1].procs[p].state == RUNNABLE)
            || (pc' == Yield(3, y.k) && y.stage == 2)
            || (pc' == y.k && y.stage == 3)
  {
    RanIs(ss, xs);
    assert Next(ss[k], xs[k], ss[k + 1]);
    RunInv(ss, xs, k);
    assert PcOk(|ss[k].procs|, |ss[k].slocks|, ss[k].pcs[p]);
    if xs[k].Sched? || xs[k].p != p { PcStays(ss[k], xs[k], ss[k + 1], p); }
  }

  lemma {:induction false} YieldTells(ss: seq<State>, xs: seq<Step>, a: nat, k: nat, p: nat)
    requires Yielding(ss, xs, a, k, p)
    ensures p < |ss[a].pcs| && ss[k].pcs[p].k == ss[a].pcs[p] && (ss[k].pcs[p].stage >= 2 ==> SeenRunnable(ss, a, k, p))
    decreases k
  {
    if k == a + 1 {
      RanIs(ss, xs);
      assert Next(ss[a], xs[a], ss[k]);
    } else {
      var n := k - 1;
      assert Yielding(ss, xs, a, n, p);
      YieldTells(ss, xs, a, n, p);
      YieldGoes(ss, xs, n, p);
      if ss[n].pcs[p].stage >= 2 {
        var m :| a < m <= n && p < |ss[m].procs| && ss[m].procs[p].state == RUNNABLE;
      }
    }
  }

  /**
   * A preempted thread goes on where it was, and not before it has been RUNNABLE and a scheduler has had the choice.
   */
  lemma YieldReturns(ss: seq<State>, xs: seq<Step>, a: nat, k: nat, p: nat)
    requires Yielding(ss, xs, a, k, p) && k < |xs| && p < |ss[k + 1].pcs| && !ss[k + 1].pcs[p].Yield?
    ensures p < |ss[a].pcs| && ss[k + 1].pcs[p] == ss[a].pcs[p] && SeenRunnable(ss, a, k, p)
  {
    YieldTells(ss, xs, a, k, p);
    YieldGoes(ss, xs, k, p);
  }

  /** A timer interrupt leads into yield. */
  lemma PreemptYields(ss: seq<State>, xs: seq<Step>, a: nat, p: nat)
    requires Run(ss, xs) && a < |xs| && xs[a].Thread? && xs[a].p == p && xs[a].d == Preempt
    ensures p < |ss[a + 1].pcs| && Yielding(ss, xs, a, a + 1, p)
  {
    assert Next(ss[a], xs[a], ss[a + 1]);
  }

  // ------------------------------------------------------------------ progress

  /** Steps of a wakeup that is at process `j`, at most. */
  function WakeLeft(n: nat, stage: nat, j: nat): (r: int) {
    2 * (n - j) + (if stage == 0 then 1 else 0)
  }

  function ReparentLeft(n: nat, i: nat): (r: nat)
    decreases n - i
  {
    if i >= n then 2 * n + 8 else ReparentLeft(n, i + 1) + 2 * n + 4
  }

  /** How many steps of its own a thread takes, at most, before it is back from its call, or asleep, or dead. */
  function Left(n: nat, pc: PC): (r: int) {
    match pc
    case Unborn | Idle | Dead => 0
    case Forkret => 1
    case Yield(stage, k) => Left(n, k) + 4 - stage
    case Sleep(stage, _) => 6 - stage
    case Wake(stage, _, j, ret) =>
      WakeLeft(n, stage, j)
      + (match ret case RetReparent(i) => ReparentLeft(n, i) case RetExit => 5 case RetRelease(_) => 2)
    case ForkScan(i) => 2 * (n - i) + 8
    case ForkTest(i) => 2 * (n - i) + 7
    case ForkCopy(_) => 6
    case ForkParent(_) => 5
    case ForkSet(_) => 4
    case ForkLock(_) => 3
    case ForkRun(_) => 2
    case ExitStart => ReparentLeft(n, 0) + 1
    case Reparent(i) => ReparentLeft(n, i)
    case ExitLock => 4
    case ExitZombie => 3
    case ExitRel => 2
    case ExitSched => 1
    case WaitStart => 3 * n + 13
    case WaitScan(i, _) => 3 * (n - i) + 12
    case WaitChild(i) => 3 * (n - i) + 11
    case WaitTest(i) => 3 * (n - i) + 10
    case WaitAsk => 9
    case WaitKilled => 8
    case WaitReaped(_, _) => 3
    case WaitRel(_) => 2
    case KillScan(_, i) => 2 * (n - i) + 2
    case KillTest(_, i) => 2 * (n - i) + 1
    case AcqStart(_) => 8
    case AcqTest(_) => 7
    case AcqRel(_) => 1
    case RelStart(_) => 2 * n + 5
    case RelSet(_) => 2 * n + 4
    case RelDone(_) => 1
  }

  lemma LeftOk(n: nat, m: nat, pc: PC)
    requires PcOk(n, m, pc)
    ensures Left(n, pc) >= 0
  {
  }

  ghost predicate Nearer(s: State, p: nat, d: Choice)
    requires Shape(s) && p < |s.procs|
  {
    Left(|s.procs|, Work(s, p, d).pc) < Left(|s.procs|, s.pcs[p])
  }

  lemma WakeNearer(s: State, c: nat, p: nat, d: Choice)
    requires Shape(s) && CanWork(s, c, p, d) && PartOf(s.pcs[p], d) in {Wakes, Reparents, Exits, Locks, Kills}
    ensures Nearer(s, p, d)
  {
    assert PcOk(|s.procs|, |s.slocks|, s.pcs[p]);
  }

  lemma OtherNearer(s: State, c: nat, p: nat, d: Choice)
    requires Shape(s) && CanWork(s, c, p, d) && PartOf(s.pcs[p], d) !in {Wakes, Reparents, Exits, Locks, Kills, Divert}
    ensures Nearer(s, p, d)
  {
    assert PcOk(|s.procs|, |s.slocks|, s.pcs[p]);
  }

  lemma WorkNearer(s: State, c: nat, p: nat, d: Choice)
    requires Shape(s) && CanWork(s, c, p, d) && (d.Go? || d.Fail?)
    ensures Nearer(s, p, d)
  {
    if PartOf(s.pcs[p], d) in {Wakes, Reparents, Exits, Locks, Kills} {
      WakeNearer(s, c, p, d);
    } else {
      OtherNearer(s, c, p, d);
    }
  }

  lemma AcquireNearer(n: nat, m: nat, p: nat, pc: PC)
    requires PcOk(n, m, pc) && Wants(n, p, pc).Some? && !(pc.Sleep? && pc.stage == 5)
    ensures Left(n, Acquired(pc)) < Left(n, pc)
  {
  }

  /**
   * No call goes round in circles. Whenever a thread moves, other than by beginning a call, by being preempted or by
   * waking up to test again what it was asleep for, it is nearer to its return, to sleep or to its end.
   */
  lemma CallsEnd(ss: seq<State>, xs: seq<Step>, k: nat)
    requires Run(ss, xs) && k < |xs| && !xs[k].Sched? && (xs[k].Thread? ==> xs[k].d.Go? || xs[k].d.Fail?)
    requires xs[k].p < |ss[k].pcs| ==> ss[k].pcs[xs[k].p].Sleep? ==> ss[k].pcs[xs[k].p].stage != 5
    ensures xs[k].p < |ss[k].pcs| && xs[k].p < |ss[k + 1].pcs|
    ensures 0 <= Left(|ss[k].procs|, ss[k + 1].pcs[xs[k].p]) < Left(|ss[k].procs|, ss[k].pcs[xs[k].p])
  {
    var s, x := ss[k], xs[k];
    assert Next(s, x, ss[k + 1]);
    RunInv(ss, xs, k + 1);
    if x.Thread? {
      WorkNearer(s, x.c, x.p, x.d);
    } else {
      AcquireNearer(|s.procs|, |s.slocks|, x.p, s.pcs[x.p]);
    }
    LeftOk(|s.procs|, |s.slocks|, ss[k + 1].pcs[x.p]);
  }

  /** How many slots a scheduler looks at before it comes to slot `t`. */
  function Distance(n: nat, i: nat, t: nat): (r: int) {
    if i <= t then t - i else t + n - i
  }

  /** A scheduler goes round the table: with every slot it is done with, it is nearer to each of the others. */
  lemma SchedulerGoesRound(ss: seq<State>, xs: seq<Step>, k: nat, c: nat, t: nat)
    requires Run(ss, xs) && k < |xs| && xs[k] == Sched(c) && c < |ss[k].cpus| && t < |ss[k].procs|
    ensures c < |ss[k + 1].cpus| && !ss[k].cpus[c].sched.Away?
    ensures var n, i, i' := |ss[k].procs|, ss[k].cpus[c].sched.i, ss[k + 1].cpus[c].sched.i;
            if ss[k + 1].cpus[c].sched.Scan? && t != i then Distance(n, i', t) == Distance(n, i, t) - 1
            else ss[k + 1].cpus[c].sched.Scan? || i' == i
    ensures ss[k].cpus[c].sched == Check(t) && ss[k].procs[t].state == RUNNABLE ==> ss[k + 1].cpus[c].sched == Chosen(t)
  {
    assert Next(ss[k], xs[k], ss[k + 1]);
    NextSlot(|ss[k].procs|, ss[k].cpus[c].sched.i);
  }

  lemma NextSlot(n: nat, i: nat)
    requires i < n
    ensures (i + 1) % n == if i + 1 == n then 0 else i + 1
  {
  }
}
