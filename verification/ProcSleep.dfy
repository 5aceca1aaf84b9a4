/** No wakeup is lost: sleep, wakeup and the sleep-locks built on them. */
module ProcSleep {
  import opened Common
  import opened ProcModel
  import opened ProcInv

  /** Asleep on `ch`, or past its last test of the condition and on the way to sleep. */
  predicate Asleep(pc: PC, st: ProcState, ch: Chan) {
    pc.Sleep? && pc.ch == ch && (pc.stage <= 3 || (pc.stage == 4 && st == SLEEPING))
  }

  ghost predicate InSleep(s: State, x: nat, ch: Chan)
    requires Shape(s) && x < |s.procs|
  {
    Asleep(s.pcs[x], s.procs[x].state, ch)
  }

  /** wakeup leaves nobody it has passed asleep on its channel. */
  ghost predicate PassedInv(s: State)
    requires Shape(s)
  {
    forall q, x :: 0 <= q < |s.pcs| && 0 <= x < |s.pcs| && x != q && s.pcs[q].Wake? && x < s.pcs[q].j ==>
      !InSleep(s, x, s.pcs[q].ch)
  }

  /** Some wakeup on `ch` has yet to visit `x`. */
  ghost predicate Pending(s: State, ch: Chan, x: nat)
    requires Shape(s)
  {
    exists q :: 0 <= q < |s.pcs| && q != x && s.pcs[q].Wake? && s.pcs[q].ch == ch && s.pcs[q].j <= x
  }

  /** Nobody sleeps on a free sleep-lock, except ahead of the wakeup that is coming. */
  ghost predicate SleepLockInv(s: State)
    requires Shape(s)
  {
    forall l, x :: 0 <= l < |s.slocks| && 0 <= x < |s.procs| && InSleep(s, x, LockChan(l)) && !s.slocks[l].locked ==>
      Pending(s, LockChan(l), x)
  }

  /** A sleep-lock has one holder when locked, none when free. */
  ghost predicate InsideInv(s: State)
    requires Shape(s)
  {
    && (forall l :: 0 <= l < |s.slocks| ==> s.inside[l] == if s.slocks[l].locked then {s.slocks[l].owner} else {})
    && (forall p :: 0 <= p < |s.pcs| && (Base(s.pcs[p]).RelStart? || s.pcs[p].RelSet?) ==>
          Base(s.pcs[p]).l < |s.slocks| && p in s.inside[Base(s.pcs[p]).l])
  }

  ghost predicate SleepInv(s: State) {
    Core(s) && PassedInv(s) && SleepLockInv(s) && InsideInv(s)
  }

  // ------------------------------------------------------------- exclusion

  /** While one thread is inside a condition lock, no other thread is. */
  lemma Exclusive(s: State, c: nat, p: nat, l: Lock, q: nat)
    requires Core(s) && Runs(s, c, p) && p < |s.procs| && !l.PLock? && l in HeldBy(p, s.pcs[p])
    requires q < |s.procs| && q != p
    ensures l !in HeldBy(q, s.pcs[q])
  {
    assert ProcOk(s, q);
    if s.at[q].Some? {
      var e := s.at[q].value;
      assert s.cpus[e].sched == Away(q);
      assert l in CpuHolds(s, c);
      assert l in CpuHolds(s, e) ==> c == e;
    }
  }

  // ------------------------------------------------------------ conditions

  function NewProc(s: State, e: Effect, i: nat): (q: Proc)
    requires i < |s.procs|
  {
    if i == e.j then e.q else s.procs[i]
  }

  /** No step puts another process to sleep; its own goes to sleep only inside the condition lock. */
  ghost predicate SleepsOk(s: State, p: nat, e: Effect)
    requires Shape(s) && p < |s.procs| && InRange(s, p, e)
  {
    && (forall ch :: Asleep(e.pc, NewProc(s, e, p).state, ch) && !InSleep(s, p, ch) ==>
          LkOf(ch) in HeldBy(p, s.pcs[p]) && (ch.LockChan? ==>
                                              ch.l < |s.slocks| && s.slocks[ch.l].locked && e.slock == None))
    && (e.j != p ==> e.thread.Some? || e.q.state != SLEEPING || e.q.state == s.procs[e.j].state)
    && (e.thread.Some? ==> !e.thread.value.Sleep? && !e.thread.value.Wake?)
  }

  /** A wakeup begins at process 0, moves past one process at a time, and stops after the last. */
  ghost predicate WakesOk(s: State, p: nat, e: Effect)
    requires Shape(s) && p < |s.procs| && InRange(s, p, e)
  {
    var pc := s.pcs[p];
    if pc.Wake? then
      || (pc.j == |s.procs| && !e.pc.Wake?)
      || (&& pc.j < |s.procs| && e.pc.Wake? && e.pc.ch == pc.ch && e.pc.j == pc.j + 1
          && (pc.j == p || (!e.thread.Some? && !Asleep(s.pcs[pc.j], NewProc(s, e, pc.j).state, pc.ch))))
    else e.pc.Wake? ==> e.pc.j == 0
  }

  /** Freeing a sleep-lock starts the wakeup on it. */
  ghost predicate FreesOk(s: State, p: nat, e: Effect)
    requires Shape(s) && p < |s.procs| && InRange(s, p, e)
  {
    e.slock.Some? && !e.slock.value.locked ==> e.pc.Wake? && e.pc.ch == LockChan(e.l) && e.pc.j == 0
  }

  ghost predicate HoldersOk(s: State, p: nat, e: Effect)
    requires Shape(s) && p < |s.procs| && InRange(s, p, e)
  {
    && (e.slock.Some? ==> e.ins == if e.slock.value.locked then {e.slock.value.owner} else {})
    && (e.slock.Some? && !e.slock.value.locked ==> s.inside[e.l] <= {p})
    && (e.slock.Some? && e.slock.value.locked ==> s.inside[e.l] == {})
    && (Base(e.pc).RelStart? || e.pc.RelSet? ==>
          e.slock == None && Base(e.pc).l < |s.slocks| && p in s.inside[Base(e.pc).l])
  }

  /** Only thread `p` can newly be asleep after its step, and then it held the condition lock. */
  lemma NewlyAsleep(s: State, c: nat, p: nat, e: Effect, x: nat, ch: Chan)
    requires Shape(s) && Runs(s, c, p) && p < |s.procs| && InRange(s, p, e) && SleepsOk(s, p, e)
    requires Shape(Perform(s, c, p, e)) && x < |s.procs| && InSleep(Perform(s, c, p, e), x, ch)
    ensures InSleep(s, x, ch) || (x == p && LkOf(ch) in HeldBy(p, s.pcs[p]))
  {
  }

  lemma PerformPassed(s: State, c: nat, p: nat, e: Effect)
    requires Core(s) && PassedInv(s) && Runs(s, c, p) && p < |s.procs| && InRange(s, p, e)
    requires Shape(Perform(s, c, p, e)) && SleepsOk(s, p, e) && WakesOk(s, p, e)
    ensures PassedInv(Perform(s, c, p, e))
  {
    var s' := Perform(s, c, p, e);
    forall q, x | 0 <= q < |s.pcs| && 0 <= x < |s.pcs| && x != q && s'.pcs[q].Wake? && x < s'.pcs[q].j
      ensures !InSleep(s', x, s'.pcs[q].ch)
    {
      var ch := s'.pcs[q].ch;
      if InSleep(s', x, ch) {
        NewlyAsleep(s, c, p, e, x, ch);
        if q != p {
          assert s'.pcs[q] == s.pcs[q];
          if x == p { Exclusive(s, c, p, LkOf(ch), q); }
        }
      }
    }
  }

  /** A pending wakeup stays pending, unless it is the running thread's and has just dealt with `x`. */
  lemma PendingStays(s: State, c: nat, p: nat, e: Effect, ch: Chan, x: nat)
    requires Core(s) && Runs(s, c, p) && p < |s.procs| && InRange(s, p, e)
    requires Shape(Perform(s, c, p, e)) && SleepsOk(s, p, e) && WakesOk(s, p, e)
    requires x < |s.procs| && Pending(s, ch, x) && InSleep(Perform(s, c, p, e), x, ch) && InSleep(s, x, ch)
    ensures Pending(Perform(s, c, p, e), ch, x)
  {
    var q :| 0 <= q < |s.pcs| && q != x && s.pcs[q].Wake? && s.pcs[q].ch == ch && s.pcs[q].j <= x;
    if q != p {
      WakerStays(s, c, p, e, q);
    } else {
      WakerGoesOn(s, c, p, e, ch, x);
      assert Perform(s, c, p, e).pcs[p] == e.pc;
    }
  }

  lemma WakerStays(s: State, c: nat, p: nat, e: Effect, q: nat)
    requires Core(s) && Runs(s, c, p) && p < |s.procs| && InRange(s, p, e) && q < |s.procs| && q != p && s.pcs[q].Wake?
    ensures Perform(s, c, p, e).pcs[q] == s.pcs[q]
  {
    assert ProcOk(s, q);
  }

  lemma WakerGoesOn(s: State, c: nat, p: nat, e: Effect, ch: Chan, x: nat)
    requires Shape(s) && Runs(s, c, p) && p < |s.procs| && InRange(s, p, e) && WakesOk(s, p, e) && x < |s.procs|
             && x != p
    requires Shape(Perform(s, c, p, e)) && InSleep(Perform(s, c, p, e), x, ch) && InSleep(s, x, ch)
    requires s.pcs[p].Wake? && s.pcs[p].ch == ch && s.pcs[p].j <= x
    ensures e.pc.Wake? && e.pc.ch == ch && e.pc.j <= x
  {
  }

  lemma PerformSleepLocks(s: State, c: nat, p: nat, e: Effect)
    requires SleepInv(s) && Runs(s, c, p) && p < |s.procs| && InRange(s, p, e)
    requires Shape(Perform(s, c, p, e)) && SleepsOk(s, p, e) && WakesOk(s, p, e) && FreesOk(s, p, e)
    ensures SleepLockInv(Perform(s, c, p, e))
  {
    var s' := Perform(s, c, p, e);
    forall l, x | 0 <= l < |s.slocks| && 0 <= x < |s.procs| && InSleep(s', x, LockChan(l)) && !s'.slocks[l].locked
      ensures Pending(s', LockChan(l), x)
    {
      NewlyAsleep(s, c, p, e, x, LockChan(l));
      if e.slock.Some? && e.l == l {
        assert s'.pcs[p].Wake? && s'.pcs[p].ch == LockChan(l) && s'.pcs[p].j == 0;
      } else {
        assert InSleep(s, x, LockChan(l));
        PendingStays(s, c, p, e, LockChan(l), x);
      }
    }
  }

  lemma PerformInside(s: State, c: nat, p: nat, e: Effect)
    requires SleepInv(s) && Runs(s, c, p) && p < |s.procs| && InRange(s, p, e)
    requires Shape(Perform(s, c, p, e)) && HoldersOk(s, p, e)
    requires e.thread.Some? ==> e.thread.value.Forkret? || e.thread.value.Unborn?
    ensures InsideInv(Perform(s, c, p, e))
  {
    var s' := Perform(s, c, p, e);
    forall q | 0 <= q < |s.pcs| && (Base(s'.pcs[q]).RelStart? || s'.pcs[q].RelSet?)
      ensures Base(s'.pcs[q]).l < |s.slocks| && q in s'.inside[Base(s'.pcs[q]).l]
    {
      assert q != p ==> s'.pcs[q] == s.pcs[q];
    }
  }

  // -------------------------------------------------- the steps of the source

  /** Acquiring a lock puts nobody to sleep. */
  lemma AcquireAwake(s: State, c: nat, p: nat, l: Lock, x: nat, ch: Chan)
    requires Shape(s) && CanAcquire(s, c, p, l) && Shape(DoAcquireStep(s, c, p, l)) && x < |s.procs|
    requires InSleep(DoAcquireStep(s, c, p, l), x, ch)
    ensures InSleep(s, x, ch)
  {
  }

  lemma AcquirePassed(s: State, c: nat, p: nat, l: Lock)
    requires Shape(s) && PassedInv(s) && CanAcquire(s, c, p, l) && Shape(DoAcquireStep(s, c, p, l))
    ensures PassedInv(DoAcquireStep(s, c, p, l))
  {
    var s' := DoAcquireStep(s, c, p, l);
    forall q, x | 0 <= q < |s.pcs| && 0 <= x < |s.pcs| && x != q && s'.pcs[q].Wake? && x < s'.pcs[q].j
      ensures !InSleep(s', x, s'.pcs[q].ch)
    {
      assert s.pcs[q].Wake? && s.pcs[q].ch == s'.pcs[q].ch && s.pcs[q].j == s'.pcs[q].j;
      if InSleep(s', x, s'.pcs[q].ch) {
        AcquireAwake(s, c, p, l, x, s'.pcs[q].ch);
      }
    }
  }

  lemma AcquireSleepLocks(s: State, c: nat, p: nat, l: Lock)
    requires Shape(s) && SleepLockInv(s) && CanAcquire(s, c, p, l) && Shape(DoAcquireStep(s, c, p, l))
    ensures SleepLockInv(DoAcquireStep(s, c, p, l))
  {
    var s' := DoAcquireStep(s, c, p, l);
    forall m, x | 0 <= m < |s.slocks| && 0 <= x < |s.procs| && InSleep(s', x, LockChan(m)) && !s'.slocks[m].locked
      ensures Pending(s', LockChan(m), x)
    {
      AcquireAwake(s, c, p, l, x, LockChan(m));
      var q :| 0 <= q < |s.pcs| && q != x && s.pcs[q].Wake? && s.pcs[q].ch == LockChan(m) && s.pcs[q].j <= x;
      assert s'.pcs[q].Wake? && s'.pcs[q].ch == LockChan(m) && s'.pcs[q].j <= x;
    }
  }

  lemma AcquireInside(s: State, c: nat, p: nat, l: Lock)
    requires Shape(s) && InsideInv(s) && CanAcquire(s, c, p, l) && Shape(DoAcquireStep(s, c, p, l))
    ensures InsideInv(DoAcquireStep(s, c, p, l))
  {
  }

  lemma AcquireSleep(s: State, c: nat, p: nat, l: Lock)
    requires SleepInv(s) && CanAcquire(s, c, p, l)
    ensures SleepInv(DoAcquireStep(s, c, p, l))
  {
    AcquireCore(s, c, p, l);
    AcquirePassed(s, c, p, l);
    AcquireSleepLocks(s, c, p, l);
    AcquireInside(s, c, p, l);
  }

  lemma ScheduleSleep(s: State, c: nat)
    requires SleepInv(s) && CanSchedule(s, c)
    ensures SleepInv(Schedule(s, c))
  {
    ScheduleCore(s, c);
    var s' := Schedule(s, c);
    assert s'.pcs == s.pcs;
    forall x, ch | 0 <= x < |s.procs| ensures InSleep(s', x, ch) ==> InSleep(s, x, ch) {}
    forall m, x | 0 <= m < |s.slocks| && 0 <= x < |s.procs| && InSleep(s', x, LockChan(m)) && !s'.slocks[m].locked
      ensures Pending(s', LockChan(m), x)
    {
      assert Pending(s, LockChan(m), x);
    }
  }

  /** wakeup holds both the condition lock and p->lock, so a sleeper it visits is fully asleep. */
  lemma VisitedIsParked(s: State, c: nat, p: nat)
    requires Core(s) && Runs(s, c, p) && p < |s.procs| && s.pcs[p].Wake? && s.pcs[p].stage == 1
    ensures var j, ch := s.pcs[p].j, s.pcs[p].ch;
            j < |s.procs| && (InSleep(s, j, ch) ==> s.pcs[j] == Sleep(4, ch) && s.procs[j].chan == ch)
  {
    var j, ch := s.pcs[p].j, s.pcs[p].ch;
    assert PcOk(|s.procs|, |s.slocks|, s.pcs[p]) && ProcOk(s, p) && ProcOk(s, j);
    Exclusive(s, c, p, LkOf(ch), j);
    if s.at[j].Some? {
      var k := s.at[j].value;
      var h := CpuHolds(s, k);
      assert h == HeldBy(j, s.pcs[j]);
      assert PLock(j) in CpuHolds(s, c);
      assert PLock(j) in h ==> k == c;
    }
  }

  ghost predicate SleepFacts(s: State, p: nat)
    requires Shape(s) && p < |s.procs|
  {
    var pc := s.pcs[p];
    && (pc.Wake? && pc.stage == 1 ==>
          pc.j < |s.procs| && (InSleep(s, pc.j, pc.ch) ==>
                               s.pcs[pc.j] == Sleep(4, pc.ch) && s.procs[pc.j].chan == pc.ch))
    && (pc.AcqTest? || pc.RelSet? ==>
          pc.l < |s.slocks| && s.inside[pc.l] == if s.slocks[pc.l].locked then {s.slocks[pc.l].owner} else {})
    && (Base(pc).RelStart? || pc.RelSet? ==> Base(pc).l < |s.slocks| && p in s.inside[Base(pc).l])
  }

  lemma WorkSleepFacts(s: State, c: nat, p: nat)
    requires SleepInv(s) && Runs(s, c, p) && p < |s.procs|
    ensures SleepFacts(s, p)
  {
    assert PcOk(|s.procs|, |s.slocks|, s.pcs[p]);
    if s.pcs[p].Wake? && s.pcs[p].stage == 1 {
      VisitedIsParked(s, c, p);
    }
  }

  ghost predicate SoundWork(s: State, p: nat, d: Choice)
    requires Shape(s) && p < |s.procs| && InRange(s, p, Work(s, p, d))
  {
    var e := Work(s, p, d);
    SleepsOk(s, p, e) && WakesOk(s, p, e) && FreesOk(s, p, e) && HoldersOk(s, p, e)
    && (e.thread.Some? ==> e.thread.value.Forkret? || e.thread.value.Unborn?)
  }

  ghost predicate SleepStepIn(s: State, c: nat, p: nat, d: Choice, k: Part) {
    StepIn(s, c, p, d, k) && SleepFacts(s, p) && InRange(s, p, Work(s, p, d))
  }

  lemma DivertSound(s: State, c: nat, p: nat, d: Choice)
    requires SleepStepIn(s, c, p, d, Divert)
    ensures SoundWork(s, p, d)
  {
  }

  lemma YieldSound(s: State, c: nat, p: nat, d: Choice)
    requires SleepStepIn(s, c, p, d, Yields)
    ensures SoundWork(s, p, d)
  {
  }

  lemma SleepSound(s: State, c: nat, p: nat, d: Choice)
    requires SleepStepIn(s, c, p, d, Sleeps)
    ensures SoundWork(s, p, d)
  {
  }

  lemma WakeSound(s: State, c: nat, p: nat, d: Choice)
    requires SleepStepIn(s, c, p, d, Wakes)
    ensures SoundWork(s, p, d)
  {
  }

  lemma ForkSound(s: State, c: nat, p: nat, d: Choice)
    requires SleepStepIn(s, c, p, d, Forks)
    ensures SoundWork(s, p, d)
  {
  }

  lemma StartSound(s: State, c: nat, p: nat, d: Choice)
    requires SleepStepIn(s, c, p, d, Starts)
    ensures SoundWork(s, p, d)
  {
  }

  lemma ReparentSound(s: State, c: nat, p: nat, d: Choice)
    requires SleepStepIn(s, c, p, d, Reparents)
    ensures SoundWork(s, p, d)
  {
  }

  lemma ExitSound(s: State, c: nat, p: nat, d: Choice)
    requires SleepStepIn(s, c, p, d, Exits)
    ensures SoundWork(s, p, d)
  {
  }

  lemma ScanSound(s: State, c: nat, p: nat, d: Choice)
    requires SleepStepIn(s, c, p, d, Scans)
    ensures SoundWork(s, p, d)
  {
  }

  lemma WaitSound(s: State, c: nat, p: nat, d: Choice)
    requires SleepStepIn(s, c, p, d, Waits)
    ensures SoundWork(s, p, d)
  {
  }

  lemma ReapSound(s: State, c: nat, p: nat, d: Choice)
    requires SleepStepIn(s, c, p, d, Reaps)
    ensures SoundWork(s, p, d)
  {
  }

  lemma LockSound(s: State, c: nat, p: nat, d: Choice)
    requires SleepStepIn(s, c, p, d, Locks)
    ensures SoundWork(s, p, d)
  {
  }

  lemma KillSound(s: State, c: nat, p: nat, d: Choice)
    requires SleepStepIn(s, c, p, d, Kills)
    ensures SoundWork(s, p, d)
  {
  }

  lemma WorkSound(s: State, c: nat, p: nat, d: Choice)
    requires Shape(s) && CanWork(s, c, p, d) && Facts(s, c, p) && SleepFacts(s, p) && InRange(s, p, Work(s, p, d))
    ensures SoundWork(s, p, d)
  {
    match PartOf(s.pcs[p], d)
    case Divert => DivertSound(s, c, p, d);
    case Yields => YieldSound(s, c, p, d);
    case Sleeps => SleepSound(s, c, p, d);
    case Wakes => WakeSound(s, c, p, d);
    case Forks => ForkSound(s, c, p, d);
    case Starts => StartSound(s, c, p, d);
    case Reparents => ReparentSound(s, c, p, d);
    case Exits => ExitSound(s, c, p, d);
    case Scans => ScanSound(s, c, p, d);
    case Waits => WaitSound(s, c, p, d);
    case Reaps => ReapSound(s, c, p, d);
    case Locks => LockSound(s, c, p, d);
    case Kills => KillSound(s, c, p, d);
    case Nowhere => assert false;
  }

  lemma WorkSleep(s: State, c: nat, p: nat, d: Choice)
    requires SleepInv(s) && CanWork(s, c, p, d)
    ensures InRange(s, p, Work(s, p, d)) && SleepInv(Perform(s, c, p, Work(s, p, d)))
  {
    WorkCore(s, c, p, d);
    WorkFacts(s, c, p);
    WorkSleepFacts(s, c, p);
    WorkSound(s, c, p, d);
    var e := Work(s, p, d);
    PerformPassed(s, c, p, e);
    PerformSleepLocks(s, c, p, e);
    PerformInside(s, c, p, e);
  }
}
