/**
 * The machine never stops: unless every CPU is in the panic of exit for init, some CPU can take the
 * next step of its code.
 */
module Progress {
  import opened ProcTypes
  import opened Machine
  import opened Locks
  import opened Invariant
  import opened CoreSteps
  import opened PlaceSteps
  import opened TickSteps
  import opened Protocol

  // ----- the loops stay within the table -----

  predicate WakeRange(w: Wake, n: nat) {
    if w.WkAt? then w.k <= n else w.k < n
  }

  /** A slot that the code has looked at, or is about to, exists. */
  predicate BaseRange(pc: Pc, n: nat) {
    && (pc.Sched? && pc.q.SchTest? ==> pc.q.i < n)
    && (pc.Exit? && (pc.ex.ExInit? || pc.ex.ExParent?) ==> WakeRange(pc.ex.w, n))
    && (pc.Wait? && pc.wt.WtTest? ==> pc.wt.j < n)
    && (pc.Fork? && pc.fk.FkTest? ==> pc.fk.i < n)
    && (pc.Kill? && (pc.kl.KlTest? || pc.kl.KlSet? || pc.kl.KlWake?) ==> pc.kl.i < n)
  }

  predicate InRange(ctx: Ctx, n: nat) {
    BaseRange(ctx.base, n) && (ctx.isr.ClkWake? ==> WakeRange(ctx.isr.w, n))
  }

  ghost predicate RangesOk(s: State) {
    && (forall t: nat | t < |s.threads| :: InRange(s.threads[t], |s.procs|))
    && (forall c: nat | c < |s.cpus| :: InRange(s.cpus[c].ctx, |s.procs|))
  }

  lemma ExitRange(s: State, c: nat, self: nat, q: ExitPc, st: int, act: Act, upd: Upd, pc': Pc)
    requires c < |s.cpus| && self < |s.procs| && ExitStep(s, c, self, q, st, act, upd, pc')
    ensures BaseRange(pc', |s.procs|)
  {
  }

  lemma NextRange(s: State, c: nat, self: nat, pc: Pc, act: Act, upd: Upd, pc': Pc)
    requires c < |s.cpus| && BaseStep(s, c, self, pc, act, upd, pc') && BaseRange(pc, |s.procs|)
    ensures BaseRange(pc', |s.procs|)
  {
    hide ExitStep;
    hide FreeStep;
    hide Elapsed;
    if pc.Exit? {
      ExitRange(s, c, self, pc.ex, pc.status, act, upd, pc');
    }
  }

  lemma CtxRange(s: State, c: nat, act: Act, upd: Upd, next: Ctx)
    requires c < |s.cpus| && Next(s, c, act, upd, next) && InRange(Active(s, c), |s.procs|)
    ensures InRange(next, |s.procs|)
  {
    hide BaseStep;
    hide BaseRange;
    hide Self;
    hide Active;
    var ctx := Active(s, c);
    if ctx.isr == Idle && next.isr == Idle && BaseStep(s, c, Self(s, c), ctx.base, act, upd, next.base) {
      NextRange(s, c, Self(s, c), ctx.base, act, upd, next.base);
    }
  }

  lemma RangesStep(s: State, c: nat, act: Act, upd: Upd, next: Ctx, s': State)
    requires StepBy(s, c, act, upd, next, s') && RangesOk(s)
    ensures RangesOk(s')
  {
    hide Next;
    hide InRange;
    assert InRange(Active(s, c), |s.procs|);
    CtxRange(s, c, act, upd, next);
    ParkedRange(|s.procs|, if upd.SwitchOut? then upd.i else 0);
    CtxsAfter(s, c, act, upd, next, s');
  }

  /** Every context after the step is one from before, the one the step goes to, or a parked one. */
  lemma CtxsAfter(s: State, c: nat, act: Act, upd: Upd, next: Ctx, s': State)
    requires StepBy(s, c, act, upd, next, s')
    ensures |s'.procs| == |s.procs| && |s'.threads| == |s.threads| && |s'.cpus| == |s.cpus|
    ensures forall t: nat | t < |s.threads| :: s'.threads[t] in [s.threads[t], next, Ctx(ForkRet, Idle)]
    ensures forall d: nat | d < |s.cpus| ::
      s'.cpus[d].ctx in [s.cpus[d].ctx, next, Ctx(Sched(SchClear(if upd.SwitchOut? then upd.i else 0)), Idle)]
  {
    hide Next;
  }

  lemma ParkedRange(n: nat, i: nat)
    ensures InRange(Ctx(ForkRet, Idle), n) && InRange(Ctx(Sched(SchClear(i)), Idle), n)
  {
  }

  lemma {:induction false} RangesRun(states: seq<State>)
    requires Run(states)
    ensures RangesOk(states[|states| - 1])
  {
    hide StepBy;
    if |states| > 1 {
      var before := states[..|states| - 1];
      assert forall i | 0 <= i < |before| :: before[i] == states[i];
      RangesRun(before);
      assert Step(states[|states| - 2], states[|states| - 1]);
      var c: nat, act: Act, upd: Upd, next: Ctx :| StepBy(states[|states| - 2], c, act, upd, next, states[|states| - 1]);
      RangesStep(states[|states| - 2], c, act, upd, next, states[|states| - 1]);
    }
  }

  // ----- every program point has a step -----

  /** A step of the code the CPU executes, not an interrupt that arrives there. */
  ghost predicate OwnStep(s: State, c: nat, act: Act, upd: Upd, next: Ctx)
    requires c < |s.cpus|
  {
    var ctx, self := Active(s, c), Self(s, c);
    if ctx.isr != Idle then next.base == ctx.base && IsrStep(s, c, self, ctx.base, ctx.isr, act, upd, next.isr)
    else next.isr == Idle && BaseStep(s, c, self, ctx.base, act, upd, next.base)
  }

  /** The CPU is in panic("init exiting"). */
  predicate InitPanics(s: State, c: nat)
    requires c < |s.cpus|
  {
    Active(s, c).isr == Idle && Active(s, c).base.ExitCheck? && Self(s, c) == s.init
  }

  lemma WakeGoes(s: State, c: nat, ch: Chan, w: Wake) returns (act: Act, upd: Upd, w': Wake)
    requires c < |s.cpus| && WakeRange(w, |s.procs|) && w.k < |s.procs|
    ensures WakeStep(s, c, ch, w, act, upd, w')
  {
    act, upd := Nop, NoUpd;
    match w
    case WkAt(k) =>
      w' := if s.cpus[c].proc == Some(k) then WkAt(k + 1) else WkTest(k);
      act := if s.cpus[c].proc == Some(k) then Nop else Acquire(PLock(k));
    case WkTest(k) =>
      w' := WkNext(k);
      upd := if s.procs[k].state == SLEEPING && s.procs[k].chan == ch then SetState(k, RUNNABLE) else NoUpd;
    case WkNext(k) =>
      act, w' := Release(PLock(k)), WkAt(k + 1);
  }

  lemma SchedGoes(s: State, q: SchedPc) returns (act: Act, upd: Upd, pc': Pc)
    requires BaseRange(Sched(q), |s.procs|) && !q.SchIn?
    ensures SchedStep(s, q, act, upd, pc')
  {
    act, upd := Nop, NoUpd;
    match q
    case SchTop => upd, pc' := SetIntr(true), Sched(SchAt(0));
    case SchAt(i) =>
      act := if i < |s.procs| then Acquire(PLock(i)) else Nop;
      pc' := if i < |s.procs| then Sched(SchTest(i)) else Sched(SchTop);
    case SchTest(i) =>
      upd := if s.procs[i].state == RUNNABLE then SetState(i, RUNNING) else NoUpd;
      pc' := if s.procs[i].state == RUNNABLE then Sched(SchCpu(i)) else Sched(SchSkip(i));
    case SchCpu(i) => upd, pc' := SetCpuProc(Some(i)), Sched(SchGo(i));
    case SchGo(i) => pc' := Sched(SchIn(i));
    case SchClear(i) => upd, pc' := SetCpuProc(None), Sched(SchUnlk(i));
    case SchUnlk(i) => act, pc' := Release(PLock(i)), Sched(SchAt(i + 1));
    case SchSkip(i) => act, pc' := Release(PLock(i)), Sched(SchAt(i + 1));
  }

  lemma SleepGoes(s: State, c: nat, self: nat, w: Why, q: SleepPc) returns (act: Act, upd: Upd, pc': Pc)
    requires c < |s.cpus|
    ensures SleepStep(s, c, self, w, q, act, upd, pc')
  {
    act, upd := Nop, NoUpd;
    match q
    case SlLock => act, pc' := Acquire(PLock(self)), Sleep(w, SlUnlk);
    case SlUnlk => act, pc' := Release(LockOf(w)), Sleep(w, SlChan);
    case SlChan => upd, pc' := SetChan(self, ChanOf(w, self)), Sleep(w, SlState);
    case SlState => upd, pc' := SetState(self, SLEEPING), Sleep(w, SlSwitch);
    case SlSwitch =>
      pc' := Sleep(w, SlResume(s.cpus[c].intena));
      upd := SwitchOut(self, Ctx(pc', Idle));
    case SlResume(b) => upd, pc' := SetIntena(b), Sleep(w, SlTidy);
    case SlTidy => upd, pc' := SetChan(self, NoChan), Sleep(w, SlUnlock);
    case SlUnlock => act, pc' := Release(PLock(self)), Sleep(w, SlRelock);
    case SlRelock => act, pc' := Acquire(LockOf(w)), After(w);
  }

  lemma ExitGoesOn(s: State, c: nat, self: nat, q: ExitPc, st: int) returns (act: Act, upd: Upd, pc': Pc)
    requires c < |s.cpus| && self < |s.procs| && BaseRange(Exit(q, st), |s.procs|) && !q.ExDead?
    ensures ExitStep(s, c, self, q, st, act, upd, pc')
  {
    act, upd := Nop, NoUpd;
    match q
    case ExLock => act, pc' := Acquire(WaitLock), Exit(ExScan(0), st);
    case ExScan(j) =>
      if j >= |s.procs| {
        pc' := Exit(ExParent(s.procs[self].parent, WkAt(0)), st);
      } else if s.procs[j].parent == Some(self) {
        upd, pc' := SetParent(j, Some(s.init)), Exit(ExInit(j, WkAt(0)), st);
      } else {
        pc' := Exit(ExScan(j + 1), st);
      }
    case ExInit(j, w) =>
      if w == WkAt(|s.procs|) {
        pc' := Exit(ExScan(j + 1), st);
      } else {
        var w';
        act, upd, w' := WakeGoes(s, c, OnProc(s.init), w);
        pc' := Exit(ExInit(j, w'), st);
      }
    case ExParent(p, w) =>
      if w == WkAt(|s.procs|) {
        pc' := Exit(ExSelf, st);
      } else {
        var w';
        act, upd, w' := WakeGoes(s, c, if p.Some? then OnProc(p.value) else NoChan, w);
        pc' := Exit(ExParent(p, w'), st);
      }
    case ExSelf => act, pc' := Acquire(PLock(self)), Exit(ExStatus, st);
    case ExStatus => upd, pc' := SetXstate(self, st), Exit(ExZombie, st);
    case ExZombie => upd, pc' := SetState(self, ZOMBIE), Exit(ExUnlk, st);
    case ExUnlk => act, pc' := Release(WaitLock), Exit(ExSwitch, st);
    case ExSwitch => upd, pc' := SwitchOut(self, Ctx(Exit(ExDead, st), Idle)), Exit(ExDead, st);
  }

  lemma FreeGoes(i: nat, f: Free) returns (act: Act, upd: Upd, f': Free)
    requires f != FrState
    ensures FreeStep(i, f, act, upd, f')
  {
    act, upd := Nop, NoUpd;
    match f
    case FrKmem => f' := FrPid;
    case FrKmemUnlk => act, f' := Release(KmemLock), FrKmem;
    case FrPid => upd, f' := SetPid(i, 0), FrParent;
    case FrParent => upd, f' := SetParent(i, None), FrChan;
    case FrChan => upd, f' := SetChan(i, NoChan), FrKilled;
    case FrKilled => upd, f' := SetKilled(i, false), FrXstate;
    case FrXstate => upd, f' := SetXstate(i, 0), FrState;
  }

  lemma KilledGoes(s: State, self: nat, k: Killed) returns (act: Act, k': Killed)
    requires self < |s.procs| && !k.KdUnlk?
    ensures KilledStep(s, self, k, act, NoUpd, k')
  {
    act := if k.KdLock? then Acquire(PLock(self)) else Nop;
    k' := if k.KdLock? then KdRead else KdUnlk(s.procs[self].killed);
  }

  lemma WaitGoesOn(s: State, self: nat, q: WaitPc) returns (act: Act, upd: Upd, pc': Pc)
    requires self < |s.procs| && BaseRange(Wait(q), |s.procs|)
    ensures WaitStep(s, self, q, act, upd, pc')
  {
    act, upd := Nop, NoUpd;
    match q
    case WtLock => act, pc' := Acquire(WaitLock), Wait(WtAt(0, false));
    case WtAt(j, kids) =>
      if j >= |s.procs| {
        pc' := Wait(if kids then WtKilled(KdLock) else WtFail(NoChildren));
      } else if s.procs[j].parent == Some(self) {
        act, pc' := Acquire(PLock(j)), Wait(WtTest(j));
      } else {
        pc' := Wait(WtAt(j + 1, kids));
      }
    case WtTest(j) => pc' := Wait(if s.procs[j].state == ZOMBIE then WtBadChild(j) else WtSkip(j));
    case WtSkip(j) => act, pc' := Release(PLock(j)), Wait(WtAt(j + 1, true));
    case WtBadChild(j) => act, pc' := Release(PLock(j)), Wait(WtFail(BadAddress));
    case WtFree(j, f, got) =>
      if f == FrState {
        upd, pc' := SetState(j, UNUSED), Wait(WtUnlkChild(j, got));
      } else {
        var f';
        act, upd, f' := FreeGoes(j, f);
        pc' := Wait(WtFree(j, f', got));
      }
    case WtUnlkChild(j, got) => act, pc' := Release(PLock(j)), Wait(WtDone(got));
    case WtDone(_) => act, upd, pc' := Release(WaitLock), SetIntr(true), User;
    case WtKilled(k) =>
      if k.KdUnlk? {
        act, pc' := Release(PLock(self)), if k.killed then Wait(WtFail(WasKilled)) else Sleep(InWait, SlLock);
      } else {
        var k';
        act, k' := KilledGoes(s, self, k);
        pc' := Wait(WtKilled(k'));
      }
    case WtFail(_) => act, upd, pc' := Release(WaitLock), SetIntr(true), User;
  }

  lemma ForkGoesOn(s: State, self: nat, q: ForkPc) returns (act: Act, upd: Upd, pc': Pc)
    requires BaseRange(Fork(q), |s.procs|)
    ensures ForkStep(s, self, q, act, upd, pc')
  {
    act, upd := Nop, NoUpd;
    match q
    case FkAt(i) =>
      act := if i < |s.procs| then Acquire(PLock(i)) else Nop;
      upd := if i < |s.procs| then NoUpd else SetIntr(true);
      pc' := if i < |s.procs| then Fork(FkTest(i)) else User;
    case FkTest(i) => pc' := Fork(if s.procs[i].state == UNUSED then FkPidLock(i) else FkSkip(i));
    case FkSkip(i) => act, pc' := Release(PLock(i)), Fork(FkAt(i + 1));
    case FkPidLock(i) => act, pc' := Acquire(PidLock), Fork(FkPidRead(i));
    case FkPidRead(i) => pc' := Fork(FkPidBump(i, s.nextpid));
    case FkPidBump(i, pid) => upd, pc' := BumpPid, Fork(FkPidUnlk(i, pid));
    case FkPidUnlk(i, pid) => act, pc' := Release(PidLock), Fork(FkSetPid(i, pid));
    case FkSetPid(i, pid) => upd, pc' := SetPid(i, pid), Fork(FkUsed(i));
    case FkUsed(i) => upd, pc' := SetState(i, USED), Fork(FkMem(i));
    case FkMem(i) => pc' := Fork(FkContext(i));
    case FkMemUnlk(i) => act, pc' := Release(KmemLock), Fork(FkMem(i));
    case FkContext(i) => upd, pc' := SetContext(i), Fork(FkCopy(i));
    case FkCopy(i) => pc' := Fork(FkUndo(i, FrKmem));
    case FkCopyUnlk(i) => act, pc' := Release(KmemLock), Fork(FkCopy(i));
    case FkUnlk(i, pid) => act, pc' := Release(PLock(i)), Fork(FkWait(i, pid));
    case FkWait(i, pid) => act, pc' := Acquire(WaitLock), Fork(FkParent(i, pid));
    case FkParent(i, pid) => upd, pc' := SetParent(i, Some(self)), Fork(FkWaitUnlk(i, pid));
    case FkWaitUnlk(i, pid) => act, pc' := Release(WaitLock), Fork(FkRelock(i, pid));
    case FkRelock(i, pid) => act, pc' := Acquire(PLock(i)), Fork(FkRun(i, pid));
    case FkRun(i, pid) => upd, pc' := SetState(i, RUNNABLE), Fork(FkUnlk2(i, pid));
    case FkUnlk2(i, _) => act, upd, pc' := Release(PLock(i)), SetIntr(true), User;
    case FkUndo(i, f) =>
      if f == FrState {
        upd, pc' := SetState(i, UNUSED), Fork(FkUndoUnlk(i));
      } else {
        var f';
        act, upd, f' := FreeGoes(i, f);
        pc' := Fork(FkUndo(i, f'));
      }
    case FkUndoUnlk(i) => act, upd, pc' := Release(PLock(i)), SetIntr(true), User;
  }

  lemma KillGoes(s: State, q: KillPc) returns (act: Act, upd: Upd, pc': Pc)
    requires BaseRange(Kill(q), |s.procs|)
    ensures KillStep(s, q, act, upd, pc')
  {
    act, upd := Nop, NoUpd;
    match q
    case KlAt(i, pid, known) =>
      act := if i < |s.procs| then Acquire(PLock(i)) else Nop;
      upd := if i < |s.procs| then NoUpd else SetIntr(true);
      pc' := if i < |s.procs| then Kill(KlTest(i, pid, known)) else User;
    case KlTest(i, pid, known) => pc' := Kill(if s.procs[i].pid == pid then KlSet(i, pid) else KlSkip(i, pid, known));
    case KlSkip(i, pid, known) => act, pc' := Release(PLock(i)), Kill(KlAt(i + 1, pid, known));
    case KlSet(i, pid) => upd, pc' := SetKilled(i, true), Kill(KlWake(i, pid));
    case KlWake(i, pid) =>
      upd, pc' := if s.procs[i].state == SLEEPING then SetState(i, RUNNABLE) else NoUpd, Kill(KlUnlk(i, pid));
    case KlUnlk(i, _) => act, upd, pc' := Release(PLock(i)), SetIntr(true), User;
  }

  lemma FaultGoes(self: nat, q: FaultPc) returns (act: Act, upd: Upd, pc': Pc)
    ensures FaultStep(self, q, act, upd, pc')
  {
    act, upd := Nop, NoUpd;
    match q
    case FlLock => act, pc' := Acquire(PLock(self)), Fault(FlSet);
    case FlSet => upd, pc' := SetKilled(self, true), Fault(FlUnlk);
    case FlUnlk => act, pc' := Release(PLock(self)), Trap(KdLock);
  }

  lemma TicksGoes(s: State, self: nat, q: TickPc) returns (act: Act, upd: Upd, pc': Pc)
    requires self < |s.procs|
    ensures TicksStep(s, self, q, act, upd, pc')
  {
    act, upd := Nop, NoUpd;
    match q
    case TsLock(n) => act, pc' := Acquire(TicksLock), Ticks(TsRead(n));
    case TsRead(n) => pc' := Ticks(TsLoop(n, Ticks32(s), s.now));
    case TsLoop(n, t0, start) =>
      pc' := Ticks(if Elapsed(s, t0) < n then TsKilled(n, t0, start, s.now, KdLock) else TsOk(n, start));
    case TsKilled(n, t0, start, seen, k) =>
      if k.KdUnlk? {
        act, pc' := Release(PLock(self)), if k.killed then Ticks(TsFail) else Sleep(InTicks(n, t0, start, seen), SlLock);
      } else {
        var k';
        act, k' := KilledGoes(s, self, k);
        pc' := Ticks(TsKilled(n, t0, start, seen, k'));
      }
    case TsOk(_, _) => act, upd, pc' := Release(TicksLock), SetIntr(true), User;
    case TsFail => act, upd, pc' := Release(TicksLock), SetIntr(true), User;
  }

  lemma TrapGoes(s: State, self: nat, k: Killed) returns (act: Act, upd: Upd, pc': Pc)
    requires self < |s.procs|
    ensures TrapStep(s, self, k, act, upd, pc')
  {
    upd := NoUpd;
    if k == KdUnlk(true) {
      act, pc' := Release(PLock(self)), ExitCheck(true, -1);
    } else if k.KdUnlk? {
      act, upd, pc' := Release(PLock(self)), SetIntr(true), User;
    } else {
      var k';
      act, k' := KilledGoes(s, self, k);
      pc' := Trap(k');
    }
  }

  /** The code of a thread, or of a scheduler, is never at a point without a step except in the panic. */
  lemma BaseGoes(s: State, c: nat, self: nat, pc: Pc) returns (act: Act, upd: Upd, pc': Pc)
    requires c < |s.cpus| && BaseRange(pc, |s.procs|) && (self < |s.procs| || pc.Sched?)
    requires !(pc.Sched? && pc.q.SchIn?) && !(pc.Exit? && pc.ex.ExDead?) && !(pc.ExitCheck? && self == s.init)
    ensures BaseStep(s, c, self, pc, act, upd, pc')
  {
    hide BaseRange;
    hide SchedStep;
    hide SleepStep;
    hide ExitStep;
    hide WaitStep;
    hide ForkStep;
    hide KillStep;
    hide TicksStep;
    hide TrapStep;
    act, upd := Nop, NoUpd;
    match pc
    case User => pc' := User;
    case Fault(q) => act, upd, pc' := FaultGoes(self, q);
    case ExitCheck(_, st) => pc' := Exit(ExLock, st);
    case Trap(k) => act, upd, pc' := TrapGoes(s, self, k);
    case ForkRet => act, upd, pc' := Release(PLock(self)), SetIntr(true), User;
    case Sched(q) => act, upd, pc' := SchedGoes(s, q);
    case Sleep(w, q) => act, upd, pc' := SleepGoes(s, c, self, w, q);
    case Exit(q, st) => act, upd, pc' := ExitGoesOn(s, c, self, q, st);
    case Wait(q) => act, upd, pc' := WaitGoesOn(s, self, q);
    case Fork(q) => act, upd, pc' := ForkGoesOn(s, self, q);
    case Kill(q) => act, upd, pc' := KillGoes(s, q);
    case Ticks(q) => act, upd, pc' := TicksGoes(s, self, q);
  }

  lemma IsrGoes(s: State, c: nat, self: nat, base: Pc, isr: Isr) returns (act: Act, upd: Upd, isr': Isr)
    requires c < |s.cpus| && isr != Idle && (isr.ClkWake? ==> WakeRange(isr.w, |s.procs|))
    ensures IsrStep(s, c, self, base, isr, act, upd, isr')
  {
    act, upd := Nop, NoUpd;
    match isr
    case ClkLock => act, isr' := Acquire(TicksLock), ClkInc;
    case ClkInc => upd, isr' := Tick, ClkWake(WkAt(0));
    case ClkWake(w) =>
      if w == WkAt(|s.procs|) {
        isr' := ClkUnlk;
      } else {
        var w';
        act, upd, w' := WakeGoes(s, c, OnTicks, w);
        isr' := ClkWake(w');
      }
    case ClkUnlk => act, isr' := Release(TicksLock), Decide;
    case Decide =>
      isr' := if s.cpus[c].proc.Some? && s.cpus[c].proc.value < |s.procs| && s.procs[s.cpus[c].proc.value].state == RUNNING
              then YLock else Ret(false);
    case YLock => act, isr' := Acquire(PLock(self)), YSet;
    case YSet => upd, isr' := SetState(self, RUNNABLE), YSwitch;
    case YSwitch =>
      isr' := YResume(s.cpus[c].intena);
      upd := SwitchOut(self, Ctx(base, isr'));
    case YResume(b) => upd, isr' := SetIntena(b), YUnlk;
    case YUnlk => act, isr' := Release(PLock(self)), Ret(true);
    case Ret(_) => upd, isr' := SetIntr(true), Idle;
  }

  /** What the placement invariant says of the code a CPU executes. */
  lemma CodeAt(s: State, c: nat)
    requires CoreOk(s) && c < |s.cpus|
    ensures var ctx, self := Active(s, c), Self(s, c);
      && |s.threads| == |s.procs| && (self < |s.procs| || ctx.base.Sched?)
      && !(ctx.base.Sched? && ctx.base.q.SchIn?)
      && (ctx.isr == Idle ==> !(ctx.base.Exit? && ctx.base.ex.ExDead?))
  {
    hide LocksOk;
    hide NoffOk;
    hide SlotsOk;
    assert CpuOk(s, c);
    if Self(s, c) < |s.threads| {
      assert ThreadOk(s, Self(s, c));
    }
  }

  /** Every CPU has a next step of its own code, blocked or not, unless it is in init's panic. */
  lemma HasStep(s: State, c: nat) returns (act: Act, upd: Upd, next: Ctx)
    requires CoreOk(s) && RangesOk(s) && c < |s.cpus| && !InitPanics(s, c)
    ensures OwnStep(s, c, act, upd, next)
  {
    hide CoreOk;
    hide BaseStep;
    hide IsrStep;
    hide BaseRange;
    CodeAt(s, c);
    var ctx, self := Active(s, c), Self(s, c);
    assert InRange(ctx, |s.procs|);
    if ctx.isr != Idle {
      var isr';
      act, upd, isr' := IsrGoes(s, c, self, ctx.base, ctx.isr);
      next := Ctx(ctx.base, isr');
    } else {
      var pc';
      act, upd, pc' := BaseGoes(s, c, self, ctx.base);
      next := Ctx(pc', Idle);
    }
  }

  // ----- and some CPU can take it -----

  /** Every lock the CPU may want next is free. */
  ghost predicate Unblocked(s: State, c: nat) {
    c < |s.cpus| && forall l | Wants(s, c, l) :: l !in s.held
  }

  /** The CPU's code has a next step, and whatever lock that takes is free. */
  ghost predicate CanGo(s: State, c: nat) {
    Unblocked(s, c) && exists act: Act, upd: Upd, next: Ctx :: OwnStep(s, c, act, upd, next)
  }

  lemma Blocker(s: State, c: nat) returns (l: Lock, d: nat)
    requires Reachable(s) && c < |s.cpus| && !Unblocked(s, c)
    ensures WaitsFor(s, c, l, d) && d < |s.cpus| && !InitPanics(s, d)
  {
    ReachableInv(s);
    InvParts(s);
    CoreParts(s);
    hide Inv;
    hide Wants;
    hide CoreOk;
    l :| Wants(s, c, l) && l in s.held;
    d := s.held[l];
    HolderRuns(s, l);
  }

  /** A CPU in init's panic holds no lock. */
  lemma HolderRuns(s: State, l: Lock)
    requires LocksOk(s) && l in s.held
    ensures s.held[l] < |s.cpus| && !InitPanics(s, s.held[l])
  {
  }

  lemma ReachableRanges(s: State)
    requires Reachable(s)
    ensures RangesOk(s)
  {
    hide RangesOk;
    var states: seq<State> :| Run(states) && states[|states| - 1] == s;
    RangesRun(states);
  }

  /** `c` holds a lock of rank `r - 1`, or `r` is 0. */
  ghost predicate HoldsBelow(s: State, c: nat, r: nat) {
    r > 0 ==> exists h :: h in s.held && s.held[h] == c && Rank(h) == r - 1
  }

  /** From a CPU that runs, at most three hops to the holders of wanted locks lead to one that can go. */
  lemma {:induction false} FollowHolders(s: State, c: nat, r: nat) returns (d: nat)
    requires Reachable(s) && c < |s.cpus| && !InitPanics(s, c) && HoldsBelow(s, c, r) && r <= 3
    ensures CanGo(s, d)
    decreases 3 - r
  {
    hide Reachable;
    hide InitPanics;
    if Unblocked(s, c) {
      ReachableInv(s);
      InvParts(s);
      ReachableRanges(s);
      var act, upd, next := HasStep(s, c);
      d := c;
    } else {
      var l, b := Blocker(s, c);
      if r > 0 {
        var h :| h in s.held && s.held[h] == c && Rank(h) == r - 1;
        LockOrder(s, c, l, h);
      }
      d := FollowHolders(s, b, Rank(l) + 1);
    }
  }

  /** A CPU that can go takes a step of the machine. */
  lemma GoesOn(s: State, c: nat)
    requires CanGo(s, c)
    ensures exists s': State :: Step(s, s')
  {
    hide BaseStep;
    hide IsrStep;
    var act: Act, upd: Upd, next: Ctx :| OwnStep(s, c, act, upd, next);
    assert Next(s, c, act, upd, next);
    assert act.Acquire? ==> Wants(s, c, act.l);
    var s' := Apply(s, c, act, upd, next);
    assert StepBy(s, c, act, upd, next, s');
    assert Step(s, s');
  }

  lemma PanicStays(s: State, c: nat)
    requires c < |s.cpus| && InitPanics(s, c)
    ensures !CanGo(s, c)
  {
  }

  /**
   * No state is stuck: some CPU can go on with its code, every lock it may want being free, exactly
   * when some CPU is not in the panic of init.
   */
  lemma NeverStuck(s: State)
    requires Reachable(s)
    ensures (exists c: nat :: CanGo(s, c)) <==> exists c: nat :: c < |s.cpus| && !InitPanics(s, c)
    ensures |s.cpus| > 1 || (exists c: nat :: c < |s.cpus| && !InitPanics(s, c)) ==> exists s': State :: Step(s, s')
  {
    hide Reachable;
    hide CanGo;
    hide InitPanics;
    hide Step;
    if |s.cpus| > 1 {
      OnePanic(s);
    }
    if c: nat :| c < |s.cpus| && !InitPanics(s, c) {
      var d := FollowHolders(s, c, 0);
      GoesOn(s, d);
    }
    if c: nat :| CanGo(s, c) {
      OfCpu(s, c);
      if InitPanics(s, c) {
        PanicStays(s, c);
      }
    }
  }

  /** One CPU at most executes init. */
  lemma OnePanic(s: State)
    requires Reachable(s) && |s.cpus| > 1
    ensures !InitPanics(s, 0) || !InitPanics(s, 1)
  {
    ReachableInv(s);
    InvParts(s);
    hide Reachable;
    hide Inv;
    hide LocksOk;
    hide NoffOk;
    hide SlotsOk;
    assert CpuOk(s, 0) && CpuOk(s, 1);
  }

  lemma OfCpu(s: State, c: nat)
    requires CanGo(s, c)
    ensures c < |s.cpus|
  {
  }
}
