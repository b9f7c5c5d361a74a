/**
 * What the calls of the process protocol come out as, in every reachable state: what wait, exit,
 * fork, kill and sys_sleep return and why, what wakeup and the scans leave behind, and what a timer
 * interrupt does.
 */
module Calls {
  import opened ProcTypes
  import opened Machine
  import opened Locks
  import opened Invariant
  import opened CoreSteps
  import opened PlaceSteps
  import opened SlotSteps
  import opened Effects
  import opened PidSteps
  import opened TreeSteps
  import opened SleepSteps
  import opened WakeSteps
  import opened TickSteps
  import opened Learned
  import opened Outcomes
  import opened History
  import opened Protocol

  // ----- the further invariants hold throughout -----

  ghost predicate CallsOk(s: State)
    requires |s.threads| == |s.procs|
  {
    LearnedOk(s) && OutcomesOk(s) && IsrsOk(s) && ExitedOk(s) && MarksOk(s)
  }

  lemma InitCalls(s: State)
    requires Init(s)
    ensures |s.threads| == |s.procs| && CallsOk(s)
  {
    forall c: nat | c < |s.cpus| ensures Active(s, c) == Ctx(Sched(SchTop), Idle) {
      assert s.cpus[c].ctx == Ctx(Sched(SchTop), Idle);
    }
  }

  lemma CallsStep(s: State, s': State)
    requires Inv(s) && |s.threads| == |s.procs| && CallsOk(s) && Step(s, s')
    ensures |s'.threads| == |s'.procs| && CallsOk(s')
  {
    hide StepBy;
    hide CoreOk;
    hide PidsOk;
    hide TreeOk;
    hide ZombiesOk;
    hide ChansOk;
    hide WaitsOk;
    hide WakesOk;
    hide TicksOk;
    hide LearnedOk;
    hide OutcomesOk;
    hide IsrsOk;
    hide ExitedOk;
    hide MarksOk;
    var c: nat, act: Act, upd: Upd, next: Ctx :| StepBy(s, c, act, upd, next, s');
    LearnedStep(s, c, act, upd, next, s');
    OutcomesStep(s, c, act, upd, next, s');
    IsrsStep(s, c, act, upd, next, s');
    ExitedStep(s, c, act, upd, next, s');
    MarksStep(s, c, act, upd, next, s');
  }

  lemma {:induction false} CallsRun(states: seq<State>)
    requires Run(states)
    ensures var s := states[|states| - 1]; |s.threads| == |s.procs| && CallsOk(s)
  {
    hide CallsOk;
    hide Inv;
    hide Init;
    hide Step;
    if |states| == 1 {
      InitCalls(states[0]);
    } else {
      var before := states[..|states| - 1];
      assert forall i | 0 <= i < |before| :: before[i] == states[i];
      CallsRun(before);
      InvRun(before);
      CallsStep(states[|states| - 2], states[|states| - 1]);
    }
  }

  lemma ReachableCalls(s: State)
    requires Reachable(s)
    ensures Inv(s) && |s.threads| == |s.procs| && CallsOk(s)
  {
    ReachableInv(s);
    hide CallsOk;
    hide Inv;
    var states: seq<State> :| Run(states) && states[|states| - 1] == s;
    CallsRun(states);
  }

  lemma Parts(s: State)
    requires Inv(s) && |s.threads| == |s.procs| && CallsOk(s)
    ensures CoreOk(s) && PidsOk(s) && TreeOk(s) && WaitsOk(s)
    ensures LearnedOk(s) && OutcomesOk(s) && IsrsOk(s) && ExitedOk(s) && MarksOk(s)
  {
  }

  /** What the thread that holds a lock has learned. */
  lemma HolderLearned(s: State, t: nat)
    requires CoreOk(s) && LearnedOk(s) && t < |s.threads| && !LockFree(s.threads[t].base, t)
    requires !s.threads[t].base.ForkRet? && !(s.threads[t].base.Sleep? && s.threads[t].base.sl.SlResume?)
    requires !(s.threads[t].base.Exit? && s.threads[t].base.ex.ExDead?)
    ensures |s.threads| == |s.procs| && BaseLearned(s.procs, s.init, s.threads[t].base, t)
  {
    hide LocksOk;
    hide NoffOk;
    hide SlotsOk;
    hide LockFree;
    hide BaseLearned;
    var d := OnCpu(s, t);
    assert CtxLearned(s.procs, s.init, Active(s, d), Self(s, d));
  }

  // ----- wait and exit -----

  /**
   * wait returns -1 only when the process has no child, was killed, or gave an address that a
   * zombie child's status cannot be copied to.
   */
  lemma WaitGivesUp(s: State, t: nat, why: GiveUp)
    requires Reachable(s) && t < |s.threads| && s.threads[t].base == Wait(WtFail(why))
    ensures t < |s.procs|
    ensures why == NoChildren ==> forall i: nat | i < |s.procs| :: s.procs[i].parent != Some(t)
    ensures why == WasKilled ==> s.procs[t].killed
  {
    ReachableCalls(s);
    hide Reachable;
    Parts(s);
    hide CoreOk;
    hide TreeOk;
    assert WaitThread(s, t) && OutcomeThread(s, t);
  }

  /** The address is tested only for a zombie child. */
  lemma WaitBadAddress(s: State, t: nat, j: nat)
    requires Reachable(s) && t < |s.threads| && s.threads[t].base == Wait(WtBadChild(j))
    ensures j < |s.procs| && s.procs[j].state == ZOMBIE && s.procs[j].parent == Some(t)
  {
    ReachableCalls(s);
    hide Reachable;
    Parts(s);
    HolderLearned(s, t);
    hide CoreOk;
    hide LinkOk;
    assert TreeThread(s, t);
  }

  /** wait goes to sleep only with a child, and none that is a zombie. */
  lemma WaitSleeps(s: State, t: nat, q: SleepPc)
    requires Reachable(s) && t < |s.threads| && s.threads[t].base == Sleep(InWait, q) && (q.SlLock? || q.SlUnlk?)
    ensures exists i: nat :: i < |s.procs| && s.procs[i].parent == Some(t)
    ensures forall i: nat | i < |s.procs| && s.procs[i].parent == Some(t) :: s.procs[i].state != ZOMBIE
  {
    ReachableCalls(s);
    hide Reachable;
    Parts(s);
    hide CoreOk;
    hide TreeOk;
    assert WaitThread(s, t) && OutcomeThread(s, t);
    forall i: nat | i < |s.procs| && s.procs[i].parent == Some(t) ensures s.procs[i].state != ZOMBIE {
      assert !IsZombieKid(s, t, i);
    }
  }

  /** What wait returns is the pid of a process that has exited, and the status that it passed to exit. */
  lemma WaitReturns(s: State, t: nat, got: Got)
    requires Reachable(s) && t < |s.threads| && GotOf(s.threads[t].base) == Some(got)
    ensures got.pid in s.exited && s.exited[got.pid] == got.xstate && 0 < got.pid < s.nextpid
  {
    ReachableCalls(s);
    hide Reachable;
    Parts(s);
    hide CoreOk;
    hide TreeOk;
    assert ExitedThread(s, t);
  }

  /** It is the pid of the child that it frees. */
  lemma WaitFrees(s: State, t: nat, j: nat, got: Got)
    requires Reachable(s) && t < |s.threads| && s.threads[t].base == Wait(WtFree(j, FrKmem, got))
    ensures j < |s.procs| && s.procs[j].parent == Some(t) && s.procs[j].pid == got.pid && s.procs[j].xstate == got.xstate
  {
    ReachableCalls(s);
    hide Reachable;
    Parts(s);
    HolderLearned(s, t);
    hide LocksOk;
    hide NoffOk;
    hide PlaceOk;
    hide LinkOk;
    assert TreeThread(s, t) && SlotOk(s, t);
  }

  /** A zombie's status is the one its thread passed to exit, recorded under its pid. */
  lemma ExitStatus(s: State, t: nat, q: ExitPc, status: int)
    requires Reachable(s) && t < |s.threads| && s.threads[t].base == Exit(q, status)
    requires t < |s.procs| && s.procs[t].state == ZOMBIE && s.procs[t].pid != 0
    ensures s.procs[t].xstate == status && s.procs[t].pid in s.exited && s.exited[s.procs[t].pid] == status
  {
    ReachableCalls(s);
    hide Reachable;
    Parts(s);
    ZombieAt(s, t);
    hide CoreOk;
    hide TreeOk;
    assert ExitedThread(s, t) && ExitedSlot(s, t);
  }

  lemma ZombieAt(s: State, t: nat)
    requires CoreOk(s) && t < |s.threads| == |s.procs| && s.procs[t].state == ZOMBIE && s.threads[t].base.Exit?
    ensures var q := s.threads[t].base.ex; q.ExUnlk? || q.ExSwitch? || q.ExDead?
  {
    hide LocksOk;
    hide NoffOk;
    hide SlotsOk;
    assert ThreadOk(s, t);
    if Placed(s, t) {
      var c := PlacedAt(s, t);
      assert CpuOk(s, c);
    }
  }

  // ----- fork -----

  /** fork returns the pid of a RUNNABLE child of the caller, younger than the caller. */
  lemma ForkReturns(s: State, t: nat, i: nat, pid: nat)
    requires Reachable(s) && t < |s.threads| && s.threads[t].base == Fork(FkUnlk2(i, pid)) && i < |s.procs|
    ensures s.procs[i].pid == pid && s.procs[i].state == RUNNABLE && s.procs[i].parent == Some(t)
    ensures pid != 0 && t < |s.procs| && s.procs[t].pid < pid
  {
    ReachableCalls(s);
    Parts(s);
    HolderLearned(s, t);
    assert LinkOk(s, i);
    ParentLinked(s, t);
    ParentAlive(s, i);
    hide Reachable;
    hide Inv;
    hide CoreOk;
    hide TreeOk;
  }

  lemma ParentLinked(s: State, t: nat)
    requires |s.threads| == |s.procs| && OutcomesOk(s) && t < |s.threads|
    ensures KidLinked(s, t)
  {
    hide KidLinked;
    assert OutcomeThread(s, t);
  }

  /** allocproc passes over slots in use only, and the scheduler over slots that are not RUNNABLE. */
  lemma ForkSkips(s: State, t: nat, i: nat)
    requires Reachable(s) && t < |s.threads| && s.threads[t].base == Fork(FkSkip(i)) && i < |s.procs|
    ensures s.procs[i].state != UNUSED
  {
    ReachableCalls(s);
    hide Reachable;
    Parts(s);
    HolderLearned(s, t);
  }

  lemma SchedulerSkips(s: State, c: nat, i: nat)
    requires Reachable(s) && c < |s.cpus| && Active(s, c) == Ctx(Sched(SchSkip(i)), Idle) && i < |s.procs|
    ensures s.procs[i].state != RUNNABLE
  {
    ReachableCalls(s);
    hide Reachable;
    Parts(s);
    hide CoreOk;
    assert CtxLearned(s.procs, s.init, Active(s, c), Self(s, c));
  }

  // ----- wakeup -----

  /** wakeup leaves no slot that it has tested asleep on its channel: exit for the parent, */
  lemma WakesParent(s: State, c: nat, k: nat, q: nat, st: int)
    requires Reachable(s) && c < |s.cpus| && Active(s, c) == Ctx(Exit(ExParent(Some(q), WkNext(k)), st), Idle) && k < |s.procs|
    ensures !(s.procs[k].state == SLEEPING && s.procs[k].chan == OnProc(q))
  {
    ReachableCalls(s);
    hide Reachable;
    Parts(s);
    hide CoreOk;
    assert CtxLearned(s.procs, s.init, Active(s, c), Self(s, c));
  }

  /** reparent for init, */
  lemma WakesInitProc(s: State, c: nat, k: nat, j: nat, st: int)
    requires Reachable(s) && c < |s.cpus| && Active(s, c) == Ctx(Exit(ExInit(j, WkNext(k)), st), Idle) && k < |s.procs|
    ensures !(s.procs[k].state == SLEEPING && s.procs[k].chan == OnProc(s.init))
  {
    ReachableCalls(s);
    hide Reachable;
    Parts(s);
    hide CoreOk;
    assert CtxLearned(s.procs, s.init, Active(s, c), Self(s, c));
  }

  /** and clockintr for the sleepers of sys_sleep. */
  lemma WakesSleepers(s: State, c: nat, k: nat)
    requires Reachable(s) && c < |s.cpus| && Active(s, c).isr == ClkWake(WkNext(k)) && k < |s.procs|
    ensures !(s.procs[k].state == SLEEPING && s.procs[k].chan == OnTicks)
  {
    ReachableCalls(s);
    hide Reachable;
    Parts(s);
    hide CoreOk;
    assert CtxLearned(s.procs, s.init, Active(s, c), Self(s, c));
  }

  // ----- kill -----

  /** kill(pid) marks the process with that pid and no other, and leaves it awake. */
  lemma KillMarks(s: State, t: nat, i: nat, pid: int)
    requires Reachable(s) && t < |s.threads| && s.threads[t].base == Kill(KlUnlk(i, pid)) && i < |s.procs|
    ensures s.procs[i].pid == pid && s.procs[i].killed && s.procs[i].state != SLEEPING
  {
    ReachableCalls(s);
    hide Reachable;
    Parts(s);
    HolderLearned(s, t);
  }

  /** An unexpected exception marks the process that raised it. */
  lemma FaultMarks(s: State, t: nat)
    requires Reachable(s) && t < |s.threads| && s.threads[t].base == Fault(FlUnlk)
    ensures t < |s.procs| && s.procs[t].killed
  {
    ReachableCalls(s);
    hide Reachable;
    Parts(s);
    HolderLearned(s, t);
  }

  lemma KillSets(s: State, t: nat, i: nat, pid: int)
    requires Reachable(s) && t < |s.threads| && i < |s.procs|
    requires s.threads[t].base == Kill(KlSet(i, pid)) || s.threads[t].base == Kill(KlWake(i, pid))
    ensures s.procs[i].pid == pid
  {
    ReachableCalls(s);
    hide Reachable;
    Parts(s);
    HolderLearned(s, t);
  }

  /** kill of a pid that was some process's at the call fails only when that process has been freed meanwhile. */
  lemma KillMisses(s: State, t: nat, i: nat, pid: int)
    requires Reachable(s) && t < |s.threads| && s.threads[t].base == Kill(KlAt(i, pid, true)) && i >= |s.procs|
    ensures forall j: nat | j < |s.procs| :: s.procs[j].pid != pid
  {
    ReachableCalls(s);
    hide Reachable;
    Parts(s);
    hide CoreOk;
    assert OutcomeThread(s, t);
  }

  /** A process is killed only by its own pid, or as the slot that kill(0) marked before it was allocated. */
  lemma MarkedByPid(s: State, i: nat)
    requires Reachable(s) && i < |s.procs| && s.procs[i].killed && PLock(i) !in s.held
    ensures s.procs[i].pid in s.marked || 0 in s.marked
  {
    ReachableCalls(s);
    hide Reachable;
    Parts(s);
    assert MarkedSlot(s, i);
    if BeingCleared(s, i) {
      var t: nat :| t < |s.threads| && Clearing(s.threads[t].base, i);
      ClearingHolds(s.threads[t].base, t, i);
      hide LocksOk;
      hide NoffOk;
      hide PlaceOk;
      hide SlotsOk;
      var d := OnCpu(s, t);
      LockHeld(s, d, PLock(i));
    }
  }

  lemma ClearingHolds(pc: Pc, t: nat, i: nat)
    requires Clearing(pc, i)
    ensures PLock(i) in HeldPc(pc, t) && !pc.ForkRet? && !pc.Sleep? && !pc.Exit?
  {
  }

  /** An UNUSED slot holds nothing of its last process, a mark left by kill(0) aside. */
  lemma FreshSlot(s: State, i: nat)
    requires Reachable(s) && i < |s.procs| && s.procs[i].state == UNUSED && PLock(i) !in s.held
    ensures s.procs[i].pid == 0 && s.procs[i].parent == None && s.procs[i].chan == NoChan && s.procs[i].xstate == 0
    ensures s.procs[i].killed ==> 0 in s.marked
  {
    ReachableCalls(s);
    if s.procs[i].killed {
      MarkedByPid(s, i);
    }
    hide Reachable;
    Parts(s);
    assert MarkedSlot(s, i) && LinkOk(s, i);
    hide Inv;
    hide CallsOk;
    hide WaitsOk;
    hide LearnedOk;
    hide MarksOk;
    if BeingNumbered(s, i) {
      var t: nat :| t < |s.threads| && s.threads[t].base == Fork(FkUsed(i));
      hide LocksOk;
      hide NoffOk;
      hide PlaceOk;
      hide SlotsOk;
      var d := OnCpu(s, t);
      LockHeld(s, d, PLock(i));
    }
  }

  // ----- killed processes -----

  /** usertrap calls exit(-1), and sys_sleep returns -1, only for a killed process. */
  lemma KilledOnly(s: State, t: nat)
    requires Reachable(s) && t < |s.threads| && SaysKilled(s.threads[t].base)
    ensures t < |s.procs| && s.procs[t].killed
    ensures s.threads[t].base.ExitCheck? ==> s.threads[t].base.status == -1
  {
    ReachableCalls(s);
    hide Reachable;
    Parts(s);
    hide CoreOk;
    hide TreeOk;
    assert OutcomeThread(s, t);
  }

  /** From the check of usertrap a killed process goes to exit. */
  predicate Dying(pc: Pc) {
    (pc.Trap? && pc.k != KdUnlk(false)) || pc.ExitCheck? || pc.Exit?
  }

  /** wait and sys_sleep before they have found the process not killed. */
  predicate InCall(pc: Pc) {
    || (pc.Wait? && pc.wt != WtKilled(KdUnlk(false)))
    || (pc.Ticks? && !(pc.ts.TsKilled? && pc.ts.k == KdUnlk(false)))
  }

  /**
   * A killed process at the check of usertrap never returns to user code, and in wait and sys_sleep
   * it returns instead of going to sleep.
   */
  lemma KilledGivesUp(s: State, s': State, t: nat)
    requires Reachable(s) && Step(s, s') && t < |s.threads| == |s.procs| && s.procs[t].killed
    requires Dying(s.threads[t].base) || InCall(s.threads[t].base)
    requires Alive(s.procs[t].state)
    ensures t < |s'.threads| && t < |s'.procs| && s'.procs[t].killed
    ensures Dying(s.threads[t].base) ==> Dying(s'.threads[t].base)
    ensures InCall(s.threads[t].base) ==> InCall(s'.threads[t].base) || s'.threads[t].base == User
  {
    ReachableCalls(s);
    hide Reachable;
    hide StepBy;
    Parts(s);
    var c: nat, act: Act, upd: Upd, next: Ctx :| StepBy(s, c, act, upd, next, s');
    Sizes(s, c, act, upd, next, s');
    Cases(s, c, act, upd, next, s', t);
    StaysKilled(s, c, upd, t);
    if upd == SetContext(t) {
      ContextSlot(s, c, upd);
    }
    hide CoreOk;
    hide TreeOk;
    hide Grant;
    if t == Self(s, c) && Moves(s, c, act, upd, next.base) && s'.threads[t] == next {
      KilledMove(s, c, t, s.threads[t].base, act, upd, next.base);
    }
  }

  lemma KilledMove(s: State, c: nat, self: nat, pc: Pc, act: Act, upd: Upd, pc': Pc)
    requires c < |s.cpus| && self < |s.procs| && s.procs[self].killed && BaseStep(s, c, self, pc, act, upd, pc')
    ensures Dying(pc) ==> Dying(pc')
    ensures InCall(pc) ==> InCall(pc') || pc' == User
  {
    hide WakeStep;
    hide FreeStep;
    hide ForkStep;
    hide SleepStep;
    hide SchedStep;
    hide KillStep;
    hide Elapsed;
  }

  // ----- sys_sleep -----

  // What sys_sleep measures with: n, ticks0, and the tick count it read ticks0 from.
  datatype Timing = Timing(n: nat, t0: nat, start: nat)

  function TimingOf(pc: Pc): Option<Timing> {
    match pc
    case Ticks(TsLoop(n, t0, start)) => Some(Timing(n, t0, start))
    case Ticks(TsKilled(n, t0, start, _, _)) => Some(Timing(n, t0, start))
    case Sleep(InTicks(n, t0, start, _), _) => Some(Timing(n, t0, start))
    case _ => None
  }

  /** In a step a thread in the middle of a call stays where it is, or makes a step of its own code. */
  lemma OwnStep(s: State, s': State, t: nat) returns (c: nat, act: Act, upd: Upd)
    requires Reachable(s) && Step(s, s') && t < |s.threads| && !s.threads[t].base.Exit? && !s.threads[t].base.ForkRet?
    ensures t < |s'.threads| && t < |s.procs|
    ensures var pc, pc' := s.threads[t].base, s'.threads[t].base;
      pc' == pc || (c < |s.cpus| && BaseStep(s, c, t, pc, act, upd, pc'))
  {
    ReachableCalls(s);
    hide Reachable;
    hide StepBy;
    Parts(s);
    var next: Ctx;
    c, act, upd, next :| StepBy(s, c, act, upd, next, s');
    Sizes(s, c, act, upd, next, s');
    Cases(s, c, act, upd, next, s', t);
    Busy(s, t);
    if upd == SetContext(t) {
      ContextSlot(s, c, upd);
    }
    hide CoreOk;
    hide TreeOk;
    hide Grant;
    hide BaseStep;
  }

  /** sys_sleep starts from the tick count, */
  lemma SleepStarts(s: State, s': State, t: nat, n: nat)
    requires Reachable(s) && Step(s, s') && t < |s.threads| && s.threads[t].base == Ticks(TsRead(n))
    ensures t < |s'.threads|
    ensures s'.threads[t].base == Ticks(TsRead(n)) || s'.threads[t].base == Ticks(TsLoop(n, s.now % 0x1_0000_0000, s.now))
  {
    var c, act, upd := OwnStep(s, s', t);
    hide Reachable;
    hide Step;
  }

  /** and goes on measuring from there until it returns 0, or -1. */
  lemma SleepMeasures(s: State, s': State, t: nat)
    requires Reachable(s) && Step(s, s') && t < |s.threads| && TimingOf(s.threads[t].base).Some?
    ensures t < |s'.threads|
    ensures var timing, pc := TimingOf(s.threads[t].base), s'.threads[t].base;
      TimingOf(pc) == timing || pc == Ticks(TsOk(timing.value.n, timing.value.start)) || pc == Ticks(TsFail)
  {
    var c, act, upd := OwnStep(s, s', t);
    hide Reachable;
    hide Step;
    if s'.threads[t].base != s.threads[t].base {
      TimingMove(s, c, t, s.threads[t].base, act, upd, s'.threads[t].base);
    }
    hide BaseStep;
  }

  lemma TimingMove(s: State, c: nat, self: nat, pc: Pc, act: Act, upd: Upd, pc': Pc)
    requires c < |s.cpus| && self < |s.procs| && BaseStep(s, c, self, pc, act, upd, pc') && TimingOf(pc).Some?
    ensures TimingOf(pc') == TimingOf(pc) || pc' == Ticks(TsOk(TimingOf(pc).value.n, TimingOf(pc).value.start)) || pc' == Ticks(TsFail)
  {
  }

  // ----- timer interrupts -----

  /** A timer interrupt makes the CPU give up the process it interrupted, if it interrupted one. */
  lemma InterruptYields(s: State, c: nat, gave: bool)
    requires Reachable(s) && c < |s.cpus| && Active(s, c).isr == Ret(gave)
    ensures gave <==> Self(s, c) < |s.threads|
  {
    ReachableCalls(s);
    hide Reachable;
    Parts(s);
    hide CoreOk;
    assert IsrFits(Active(s, c).isr, c, Self(s, c) < |s.threads|);
  }
}
