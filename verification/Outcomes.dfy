/** Why calls come out as they do: killed processes, wait without children, kill without a victim, timer interrupts. */
module Outcomes {
  import opened ProcTypes
  import opened Machine
  import opened Locks
  import opened Invariant
  import opened CoreSteps
  import opened PlaceSteps
  import opened SlotSteps
  import opened Effects
  import opened TreeSteps
  import opened PidSteps
  import opened SleepSteps
  import opened TickSteps
  import opened Learned

  // ----- killed -----

  /** The code has given up because the process was killed. */
  predicate SaysKilled(pc: Pc) {
    (pc.ExitCheck? && pc.killed) || pc == Wait(WtFail(WasKilled)) || pc == Ticks(TsFail)
  }

  ghost predicate KilledThread(s: State, t: nat)
    requires t < |s.threads| == |s.procs|
  {
    && (SaysKilled(s.threads[t].base) ==> s.procs[t].killed)
    && (s.threads[t].base.ExitCheck? && s.threads[t].base.killed ==> s.threads[t].base.status == -1)
  }

  /** wait has seen a child in this scan. */
  predicate KidsSeen(pc: Pc) {
    || (pc.Wait? && ((pc.wt.WtAt? && pc.wt.kids) || pc.wt.WtKilled?))
    || (pc.Sleep? && pc.why.InWait? && (pc.sl.SlLock? || pc.sl.SlUnlk?))
  }

  ghost predicate HasKid(s: State, t: nat) {
    exists i: nat :: i < |s.procs| && s.procs[i].parent == Some(t)
  }

  /** kill has looked at the slots below this one. */
  function KillBound(q: KillPc): nat {
    if q.KlAt? || q.KlTest? then q.i else if q.KlSkip? then q.i + 1 else 0
  }

  /** The pid that kill looks for was some process's at the call: it is given out once, and not in a slot already passed. */
  ghost predicate KillThread(s: State, q: KillPc) {
    (q.KlAt? || q.KlTest? || q.KlSkip?) && q.known ==>
      && 0 < q.pid < s.nextpid
      && (forall u: nat | u < |s.threads| && PidAt(s.threads[u].base).Some? :: PidAt(s.threads[u].base).value != q.pid)
      && forall j: nat | j < KillBound(q) && j < |s.procs| :: s.procs[j].pid != q.pid
  }

  ghost predicate OutcomeThread(s: State, t: nat)
    requires t < |s.threads| == |s.procs|
  {
    && KilledThread(s, t)
    && (KidsSeen(s.threads[t].base) ==> HasKid(s, t))
    && (s.threads[t].base.Kill? ==> KillThread(s, s.threads[t].base.kl))
    && KidLinked(s, t)
  }

  /** fork, at its return, is the parent of the child. */
  ghost predicate KidLinked(s: State, t: nat)
    requires t < |s.threads| == |s.procs|
  {
    var pc := s.threads[t].base;
    pc.Fork? && pc.fk.FkUnlk2? && pc.fk.i < |s.procs| ==> s.procs[pc.fk.i].parent == Some(t)
  }

  ghost predicate OutcomesOk(s: State)
    requires |s.threads| == |s.procs|
  {
    forall t: nat | t < |s.threads| :: OutcomeThread(s, t)
  }

  /** A live process is not marked as not killed. */
  lemma StaysKilled(s: State, c: nat, upd: Upd, t: nat)
    requires CoreOk(s) && TreeOk(s) && c < |s.cpus| && t < |s.procs| && Alive(s.procs[t].state)
    requires Grant(s, Active(s, c), Self(s, c), upd)
    ensures s.procs[t].killed ==> ProcsAfter(s.procs, upd)[t].killed
  {
    hide CoreOk;
    hide Held;
    ActorFacts(s, c);
  }

  lemma KilledStays(s: State, c: nat, upd: Upd, s': State, t: nat)
    requires CoreOk(s) && TreeOk(s) && Effect(s, upd, s') && Stays(s, c, upd, t) && s'.threads[t].base == s.threads[t].base
    requires KilledThread(s, t)
    ensures KilledThread(s', t)
  {
    hide TreeOk;
    hide LocksOk;
    hide NoffOk;
    hide SlotsOk;
    hide Grant;
    if SaysKilled(s.threads[t].base) {
      Busy(s, t);
      hide CoreOk;
      StaysKilled(s, c, upd, t);
    }
  }

  /** Where the code of fork, exit and sleep goes. */
  lemma GoesOnTo(s: State, c: nat, self: nat, pc: Pc, act: Act, upd: Upd, pc': Pc)
    requires c < |s.cpus| && BaseStep(s, c, self, pc, act, upd, pc') && (pc.Exit? || pc.Fork? || pc.Sleep? || pc.Sched?)
    ensures !SaysKilled(pc') && !pc'.Kill?
    ensures KidsSeen(pc') ==> pc.Sleep? && KidsSeen(pc) && upd == NoUpd
  {
    hide FreeStep;
    hide WakeStep;
  }

  lemma SaidKilled(s: State, c: nat, self: nat, pc: Pc, act: Act, upd: Upd, pc': Pc)
    requires c < |s.cpus| && self < |s.procs| && BaseStep(s, c, self, pc, act, upd, pc') && SaysKilled(pc')
    requires BaseLearned(s.procs, s.init, pc, self)
    ensures s.procs[self].killed && upd == NoUpd
    ensures pc'.ExitCheck? ==> pc'.status == -1
  {
    if pc.Exit? || pc.Fork? || pc.Sleep? || pc.Sched? {
      GoesOnTo(s, c, self, pc, act, upd, pc');
    }
    hide ExitStep;
    hide ForkStep;
    hide Elapsed;
    hide SleepStep;
    hide SchedStep;
    hide FreeStep;
  }

  /** The code that CPU `c` moves in a thread, with what it has learned. */
  lemma MovesLearned(s: State, c: nat, act: Act, upd: Upd, pc': Pc)
    requires LearnedOk(s) && Moves(s, c, act, upd, pc')
    ensures BaseLearned(s.procs, s.init, s.threads[Self(s, c)].base, Self(s, c))
  {
    hide BaseStep;
    hide BaseLearned;
    assert CtxLearned(s.procs, s.init, Active(s, c), Self(s, c));
  }

  lemma KilledMoves(s: State, c: nat, act: Act, upd: Upd, pc': Pc, s': State)
    requires CoreOk(s) && LearnedOk(s) && Effect(s, upd, s') && Moves(s, c, act, upd, pc') && s'.threads[Self(s, c)].base == pc'
    ensures KilledThread(s', Self(s, c))
  {
    hide CoreOk;
    hide BaseStep;
    hide BaseLearned;
    if SaysKilled(pc') {
      MovesLearned(s, c, act, upd, pc');
      SaidKilled(s, c, Self(s, c), s.threads[Self(s, c)].base, act, upd, pc');
    }
  }

  // ----- children -----

  lemma SeenHolds(pc: Pc, t: nat)
    requires KidsSeen(pc)
    ensures WaitLock in HeldPc(pc, t) && !pc.ForkRet? && !pc.Exit? && !(pc.Sleep? && pc.sl.SlResume?)
  {
  }

  /** While another thread holds wait_lock a child keeps its parent. */
  lemma KidKept(s: State, c: nat, upd: Upd, i: nat, t: nat)
    requires CoreOk(s) && TreeOk(s) && c < |s.cpus| && Grant(s, Active(s, c), Self(s, c), upd)
    requires i < |s.procs| && s.procs[i].parent == Some(t)
    requires WaitLock !in Held(Active(s, c), Self(s, c)) || Self(s, c) == t
    requires Self(s, c) == t && t < |s.threads| ==> upd.SetIntr? || s.threads[t].isr != Idle
    ensures ProcsAfter(s.procs, upd)[i].parent == Some(t)
  {
    hide LocksOk;
    hide NoffOk;
    hide PlaceOk;
    hide LinkOk;
    ActorFacts(s, c);
    if upd.SetParent? {
      ParentHolds(s, c, upd);
    }
  }

  /** A parent link is set under wait_lock, or by fork on a slot that has none. */
  lemma ParentHolds(s: State, c: nat, upd: Upd)
    requires c < |s.cpus| && Grant(s, Active(s, c), Self(s, c), upd) && upd.SetParent?
    ensures WaitLock in Held(Active(s, c), Self(s, c)) || Active(s, c) == Ctx(Fork(FkUndo(upd.i, FrParent)), Idle)
  {
  }

  lemma KidsStay(s: State, c: nat, upd: Upd, s': State, t: nat)
    requires CoreOk(s) && TreeOk(s) && Effect(s, upd, s') && Stays(s, c, upd, t) && s'.threads[t].base == s.threads[t].base
    requires KidsSeen(s.threads[t].base) && HasKid(s, t)
    ensures HasKid(s', t)
  {
    hide TreeOk;
    hide NoffOk;
    hide SlotsOk;
    hide Held;
    hide HeldPc;
    hide Grant;
    hide CpuOk;
    hide OffOk;
    SeenHolds(s.threads[t].base, t);
    if WaitLock in Held(Active(s, c), Self(s, c)) {
      OneHolder(s, c, t, WaitLock);
    }
    var i: nat :| i < |s.procs| && s.procs[i].parent == Some(t);
    hide CoreOk;
    KidKept(s, c, upd, i, t);
    assert i < |s'.procs| && s'.procs[i].parent == Some(t);
  }

  lemma SeenMoves(s: State, self: nat, pc: Pc, act: Act, upd: Upd, pc': Pc, c: nat)
    requires c < |s.cpus| && self < |s.procs| && BaseStep(s, c, self, pc, act, upd, pc') && KidsSeen(pc')
    ensures upd == NoUpd && (KidsSeen(pc) || (pc.Wait? && pc.wt.WtSkip?))
  {
    if pc.Exit? || pc.Fork? || pc.Sleep? || pc.Sched? {
      GoesOnTo(s, c, self, pc, act, upd, pc');
    }
    hide ExitStep;
    hide ForkStep;
    hide Elapsed;
    hide SleepStep;
    hide SchedStep;
    hide FreeStep;
  }

  lemma KidsMove(s: State, c: nat, act: Act, upd: Upd, pc': Pc, s': State)
    requires CoreOk(s) && TreeOk(s) && Effect(s, upd, s') && Moves(s, c, act, upd, pc') && s'.threads[Self(s, c)].base == pc'
    requires KidsSeen(s.threads[Self(s, c)].base) ==> HasKid(s, Self(s, c))
    requires KidsSeen(pc')
    ensures HasKid(s', Self(s, c))
  {
    hide LocksOk;
    hide NoffOk;
    hide PlaceOk;
    hide LinkOk;
    hide BaseStep;
    var self, pc := Self(s, c), s.threads[Self(s, c)].base;
    SeenMoves(s, self, pc, act, upd, pc', c);
    if pc.Wait? && pc.wt.WtSkip? {
      assert TreeThread(s, self) && SlotOk(s, self);
      assert s'.procs[pc.wt.j].parent == Some(self);
    }
  }

  // ----- kill -----

  /** A pid that is given out and in no slot passed so far does not come back. */
  lemma VictimGone(s: State, c: nat, act: Act, upd: Upd, next: Ctx, s': State, q: KillPc)
    requires StepBy(s, c, act, upd, next, s') && CoreOk(s) && PidsOk(s) && KillThread(s, q)
    ensures KillThread(s', q)
  {
    hide StepBy;
    hide Held;
    hide PidOk;
    Linked(s, c, act, upd, next, s');
    ActorPid(s, c, upd);
    hide CoreOk;
    hide Grant;
    if (q.KlAt? || q.KlTest? || q.KlSkip?) && q.known {
      forall u: nat | u < |s'.threads| && PidAt(s'.threads[u].base).Some? ensures PidAt(s'.threads[u].base).value != q.pid {
        PidStep(s, c, act, upd, next, s', u);
      }
    }
  }

  lemma KillEnters(s: State, pid: int)
    requires PidsOk(s) && HasPid(s.procs, pid)
    ensures 0 < pid < s.nextpid
    ensures forall u: nat | u < |s.threads| && PidAt(s.threads[u].base).Some? :: PidAt(s.threads[u].base).value != pid
  {
    var j :| 0 <= j < |s.procs| && s.procs[j].pid == pid;
    forall u: nat | u < |s.threads| && PidAt(s.threads[u].base).Some? ensures PidAt(s.threads[u].base).value != pid {
      assert PidOk(s, u);
    }
  }

  lemma KillMoves(s: State, c: nat, self: nat, pc: Pc, act: Act, upd: Upd, pc': Pc)
    requires c < |s.cpus| && BaseStep(s, c, self, pc, act, upd, pc') && pc'.Kill? && PidsOk(s)
    requires pc.Kill? ==> KillThread(s, pc.kl)
    ensures KillThread(s, pc'.kl)
  {
    if pc.Exit? || pc.Fork? || pc.Sleep? || pc.Sched? {
      GoesOnTo(s, c, self, pc, act, upd, pc');
    } else if pc.User? {
      hide HasPid;
      if pc'.kl.known {
        KillEnters(s, pc'.kl.pid);
      }
    }
    hide PidsOk;
    hide PidAt;
    hide ExitStep;
    hide ForkStep;
    hide Elapsed;
    hide SleepStep;
    hide SchedStep;
    hide FreeStep;
  }

  // ----- fork -----

  lemma LinkHolds(s: State, t: nat)
    requires CoreOk(s) && LearnedOk(s) && t < |s.threads| && s.threads[t].base.Fork? && s.threads[t].base.fk.FkUnlk2?
    ensures SlotIs(s.procs, s.threads[t].base.fk.i, RUNNABLE)
  {
    hide LocksOk;
    hide NoffOk;
    hide SlotsOk;
    hide PlaceOk;
    var d := OnCpu(s, t);
    assert CtxLearned(s.procs, s.init, Active(s, d), Self(s, d));
  }

  lemma LinkStays(s: State, c: nat, upd: Upd, s': State, t: nat)
    requires CoreOk(s) && TreeOk(s) && LearnedOk(s) && Effect(s, upd, s') && Stays(s, c, upd, t)
    requires s'.threads[t].base == s.threads[t].base && KidLinked(s, t)
    ensures KidLinked(s', t)
  {
    var pc := s.threads[t].base;
    if pc.Fork? && pc.fk.FkUnlk2? && pc.fk.i < |s.procs| {
      LinkHolds(s, t);
      ActorFacts(s, c);
      hide CoreOk;
      hide LearnedOk;
      hide Held;
      hide LinkOk;
    }
  }

  lemma LinkMoves(s: State, c: nat, act: Act, upd: Upd, pc': Pc, s': State)
    requires CoreOk(s) && TreeOk(s) && Effect(s, upd, s') && Moves(s, c, act, upd, pc') && s'.threads[Self(s, c)].base == pc'
    ensures KidLinked(s', Self(s, c))
  {
    hide CoreOk;
    hide LinkOk;
    hide BaseStep;
    var self, pc := Self(s, c), s.threads[Self(s, c)].base;
    if pc'.Fork? && pc'.fk.FkUnlk2? {
      assert TreeThread(s, self);
      LinkComes(s, c, self, pc, act, upd, pc');
    }
  }

  lemma LinkComes(s: State, c: nat, self: nat, pc: Pc, act: Act, upd: Upd, pc': Pc)
    requires c < |s.cpus| && BaseStep(s, c, self, pc, act, upd, pc') && pc'.Fork? && pc'.fk.FkUnlk2?
    ensures pc == Fork(FkRun(pc'.fk.i, pc'.fk.pid)) && upd == SetState(pc'.fk.i, RUNNABLE)
  {
    hide Elapsed;
    hide FreeStep;
    hide WakeStep;
  }

  // ----- all of it -----

  lemma OutcomeStep(s: State, c: nat, act: Act, upd: Upd, next: Ctx, s': State, t: nat)
    requires StepBy(s, c, act, upd, next, s') && CoreOk(s) && PidsOk(s) && TreeOk(s) && LearnedOk(s) && OutcomesOk(s) && t < |s.threads|
    requires |s'.threads| == |s'.procs| == |s.threads|
    ensures OutcomeThread(s', t)
  {
    hide StepBy;
    hide CoreOk;
    hide PidsOk;
    hide TreeOk;
    hide LearnedOk;
    hide BaseStep;
    hide Grant;
    hide KilledThread;
    hide HasKid;
    hide KidsSeen;
    hide KillThread;
    hide KidLinked;
    SizesOk(s);
    Cases(s, c, act, upd, next, s', t);
    assert OutcomeThread(s, t);
    if s'.threads[t].base == s.threads[t].base && Stays(s, c, upd, t) {
      KilledStays(s, c, upd, s', t);
      LinkStays(s, c, upd, s', t);
      if KidsSeen(s.threads[t].base) {
        KidsStay(s, c, upd, s', t);
      }
      if s.threads[t].base.Kill? {
        VictimGone(s, c, act, upd, next, s', s.threads[t].base.kl);
      }
    } else if t == Self(s, c) && Moves(s, c, act, upd, next.base) && s'.threads[t] == next {
      KilledMoves(s, c, act, upd, next.base, s');
      LinkMoves(s, c, act, upd, next.base, s');
      if KidsSeen(next.base) {
        KidsMove(s, c, act, upd, next.base, s');
      }
      if next.base.Kill? {
        KillMoves(s, c, t, s.threads[t].base, act, upd, next.base);
        VictimGone(s, c, act, upd, next, s', next.base.kl);
      }
    } else {
      ForkRetOutcome(s', t);
    }
  }

  lemma ForkRetOutcome(s: State, t: nat)
    requires t < |s.threads| == |s.procs| && s.threads[t].base == ForkRet
    ensures OutcomeThread(s, t)
  {
  }

  lemma OutcomesStep(s: State, c: nat, act: Act, upd: Upd, next: Ctx, s': State)
    requires StepBy(s, c, act, upd, next, s') && CoreOk(s) && PidsOk(s) && TreeOk(s) && LearnedOk(s) && OutcomesOk(s)
    ensures |s'.threads| == |s'.procs| && OutcomesOk(s')
  {
    hide StepBy;
    hide CoreOk;
    hide PidsOk;
    hide TreeOk;
    hide LearnedOk;
    hide OutcomeThread;
    SizesOk(s);
    Sizes(s, c, act, upd, next, s');
    forall t: nat | t < |s'.threads| ensures OutcomeThread(s', t) {
      OutcomeStep(s, c, act, upd, next, s', t);
    }
  }

  // ----- timer interrupts -----

  /** clockintr runs on CPU 0 only, and an interrupt has made the process yield exactly when there was one. */
  predicate IsrFits(isr: Isr, c: nat, inThread: bool) {
    && (isr.ClkLock? || isr.ClkInc? || isr.ClkWake? || isr.ClkUnlk? ==> c == 0)
    && (isr.Ret? ==> (isr.gave <==> inThread))
  }

  ghost predicate IsrsOk(s: State) {
    forall c: nat | c < |s.cpus| :: IsrFits(Active(s, c).isr, c, Self(s, c) < |s.threads|)
  }

  /** The process that a CPU in an interrupt executes is RUNNING until it yields; a scheduler has none. */
  lemma Interrupted(s: State, c: nat)
    requires CoreOk(s) && c < |s.cpus| && Active(s, c).isr == Decide
    ensures var q := s.cpus[c].proc;
      if Self(s, c) < |s.threads| then q.Some? && q.value < |s.procs| && s.procs[q.value].state == RUNNING else q == None
    ensures |s.threads| == |s.procs|
  {
    hide LocksOk;
    hide NoffOk;
    hide SlotsOk;
    assert CpuOk(s, c);
    assert LockFree(s.cpus[c].ctx.base, |s.threads|) || s.cpus[c].ctx.isr == Idle;
  }

  lemma NotYielding(s: State, c: nat)
    requires CoreOk(s) && c < |s.cpus| && Yielding(Active(s, c).isr)
    ensures Self(s, c) < |s.threads|
  {
    hide LocksOk;
    hide NoffOk;
    hide SlotsOk;
    assert CpuOk(s, c);
  }

  lemma IsrNext(s: State, c: nat, act: Act, upd: Upd, next: Ctx)
    requires CoreOk(s) && c < |s.cpus| && Next(s, c, act, upd, next) && IsrFits(Active(s, c).isr, c, Self(s, c) < |s.threads|)
    ensures IsrFits(next.isr, c, Self(s, c) < |s.threads|)
  {
    if Active(s, c).isr == Decide {
      Interrupted(s, c);
    } else if Active(s, c).isr == YUnlk {
      NotYielding(s, c);
    }
    hide CoreOk;
    hide BaseStep;
    hide WakeStep;
  }

  lemma IsrsStep(s: State, c: nat, act: Act, upd: Upd, next: Ctx, s': State)
    requires StepBy(s, c, act, upd, next, s') && CoreOk(s) && IsrsOk(s)
    ensures IsrsOk(s')
  {
    hide StepBy;
    hide IsrFits;
    hide Self;
    hide Active;
    CoreParts(s);
    hide CoreOk;
    Sizes(s, c, act, upd, next, s');
    NextIs(s, c, act, upd, next, s');
    forall d: nat | d < |s'.cpus| ensures IsrFits(Active(s', d).isr, d, Self(s', d) < |s'.threads|) {
      assert IsrFits(Active(s, d).isr, d, Self(s, d) < |s.threads|);
      if d == c {
        IsrNext(s, c, act, upd, next);
        NextActive(s, c, act, upd, next, s');
        if Active(s', c) != next || Self(s', c) != Self(s, c) {
          ResumedFits(Active(s', c), c, Self(s', c), Self(s', c) < |s'.threads|);
        }
      } else {
        OthersKeep(s, c, act, upd, next, s', d);
      }
    }
  }

  lemma ResumedFits(ctx: Ctx, c: nat, self: nat, inThread: bool)
    requires Resumable(ctx, self) || ctx.isr == Idle
    ensures IsrFits(ctx.isr, c, inThread)
  {
  }
}
