/** Every step keeps the lock, noff and placement invariants. */
module CoreSteps {
  import opened ProcTypes
  import opened Machine
  import opened Locks
  import opened Invariant

  // ----- what the acting CPU does -----

  /** The step of CPU `c` is in lock order, and swtch out of a thread holds only its p->lock. */
  lemma ActOrder(s: State, c: nat, act: Act, upd: Upd, next: Ctx)
    requires c < |s.cpus| && NoffOk(s) && PlaceOk(s) && Next(s, c, act, upd, next)
    ensures InOrder(Held(Active(s, c), Self(s, c)), act, Held(next, Self(s, c)))
    ensures upd == SetIntr(true) ==> Held(next, Self(s, c)) == {}
    ensures upd.SwitchOut? ==>
      && upd.i == Self(s, c) && act == Nop && upd.self == next
      && Held(Active(s, c), Self(s, c)) == {PLock(upd.i)}
  {
    hide BaseStep;
    hide IsrStep;
    hide HeldPc;
    hide HeldIsr;
    var ctx, self := Active(s, c), Self(s, c);
    assert ctx.isr != Idle ==> LockFree(ctx.base, self) by {
      assert CpuOk(s, c);
      if self < |s.threads| {
        assert ThreadOk(s, self);
      }
    }
    if ctx.isr != Idle {
      IsrOrder(s, c, self, ctx.base, ctx.isr, act, upd, next.isr);
      if next.isr == Idle {
        RetHolds(s, c, self, ctx.base, ctx.isr, act, upd);
      }
    } else if next.isr == Idle && BaseStep(s, c, self, ctx.base, act, upd, next.base) {
      BaseOrder(s, c, self, ctx.base, act, upd, next.base);
    } else {
      IntrHolds(s, c);
      EntryHolds(next.isr, self);
    }
  }

  lemma RetHolds(s: State, c: nat, self: nat, base: Pc, isr: Isr, act: Act, upd: Upd)
    requires c < |s.cpus| && IsrStep(s, c, self, base, isr, act, upd, Idle)
    ensures isr.Ret? && act == Nop && HeldIsr(isr, self) == {} && !upd.SwitchOut?
  {
  }

  lemma EntryHolds(isr: Isr, self: nat)
    requires isr == ClkLock || isr == Decide
    ensures HeldIsr(isr, self) == {}
  {
  }

  lemma IntrHolds(s: State, c: nat)
    requires c < |s.cpus| && NoffOk(s) && s.cpus[c].intr
    ensures Held(Active(s, c), Self(s, c)) == {}
  {
  }

  // ----- who makes which change -----

  /** A CPU that executes `ctx` may set the state of slot `i` to `st`: it holds p->lock, and why. */
  ghost predicate StateGrant(s: State, ctx: Ctx, self: nat, i: nat, st: ProcState) {
    && i < |s.procs| && PLock(i) in Held(ctx, self)
    && match st
      case RUNNING => s.procs[i].state == RUNNABLE && ctx == Ctx(Sched(SchTest(i)), Idle)
      case RUNNABLE =>
        || s.procs[i].state == SLEEPING
        || (i == self && ctx.isr == YSet)
        || (s.procs[i].state == USED && ctx.isr.Idle? && ctx.base.Fork? && ctx.base.fk.FkRun? && ctx.base.fk.i == i)
      case SLEEPING => i == self && ctx.isr == Idle && ctx.base.Sleep? && ctx.base.sl == SlState
      case ZOMBIE => i == self && ctx.isr.Idle? && ctx.base.Exit? && ctx.base.ex == ExZombie
      case USED => s.procs[i].state == UNUSED && ctx == Ctx(Fork(FkUsed(i)), Idle)
      case UNUSED =>
        || (s.procs[i].state == ZOMBIE && FreeingAt(ctx, i, FrState) && ctx.base.Wait?)
        || (s.procs[i].state == USED && FreeingAt(ctx, i, FrState) && ctx.base.Fork?)
  }

  /** freeproc of slot `i` is at `f`, in wait or on the error path of fork. */
  ghost predicate FreeingAt(ctx: Ctx, i: nat, f: Free) {
    && ctx.isr.Idle?
    && (|| (ctx.base.Wait? && ctx.base.wt.WtFree? && ctx.base.wt.j == i && ctx.base.wt.f == f)
        || ctx.base == Fork(FkUndo(i, f)))
  }

  /** The program points that make each change. */
  ghost predicate Grant(s: State, ctx: Ctx, self: nat, upd: Upd) {
    match upd
    case SetState(i, st) => StateGrant(s, ctx, self, i, st)
    case SetChan(i, ch) =>
      && i < |s.procs|
      && (|| (i == self && ctx.isr == Idle && ctx.base.Sleep? && ctx.base.sl == SlChan && ch == ChanOf(ctx.base.why, self))
          || (i == self && ctx.isr == Idle && ctx.base.Sleep? && ctx.base.sl == SlTidy)
          || FreeingAt(ctx, i, FrChan))
    case SetPid(i, pid) =>
      && i < |s.procs|
      && (ctx == Ctx(Fork(FkSetPid(i, pid)), Idle) || (pid == 0 && FreeingAt(ctx, i, FrPid)))
    case SetParent(i, q) =>
      && i < |s.procs|
      && (|| (ctx.isr.Idle? && ctx.base.Exit? && ctx.base.ex == ExScan(i) && q == Some(s.init) && s.procs[i].parent == Some(self))
          || (ctx.isr.Idle? && ctx.base.Fork? && ctx.base.fk.FkParent? && ctx.base.fk.i == i && q == Some(self))
          || (q == None && FreeingAt(ctx, i, FrParent)))
    case SetKilled(i, k) =>
      || (k && ctx.isr.Idle? && ctx.base.Kill? && ctx.base.kl.KlSet? && ctx.base.kl.i == i)
      || (k && i == self && ctx == Ctx(Fault(FlSet), Idle))
      || (!k && FreeingAt(ctx, i, FrKilled))
    case SetXstate(i, x) =>
      && i < |s.procs|
      && (|| (i == self && ctx == Ctx(Exit(ExStatus, x), Idle))
          || (x == 0 && FreeingAt(ctx, i, FrXstate)))
    case BumpPid => ctx.isr == Idle && ctx.base.Fork? && ctx.base.fk.FkPidBump?
    case Tick => ctx.isr == ClkInc
    case SetContext(i) => i < |s.procs| && ctx == Ctx(Fork(FkContext(i)), Idle)
    case SetCpuProc(q) =>
      && ctx.isr == Idle && ctx.base.Sched?
      && q == (if ctx.base.q.SchCpu? then Some(ctx.base.q.i) else None)
      && (ctx.base.q.SchCpu? || ctx.base.q.SchClear?)
    case SwitchOut(i, _) =>
      && i == self
      && (|| ctx.isr == YSwitch
          || (ctx.isr == Idle && ctx.base.Sleep? && ctx.base.sl == SlSwitch)
          || (ctx.isr.Idle? && ctx.base.Exit? && ctx.base.ex == ExSwitch))
    case _ => true
  }

  lemma WakeGrant(s: State, c: nat, ch: Chan, w: Wake, act: Act, upd: Upd, w': Wake, ctx: Ctx, self: nat)
    requires c < |s.cpus| && WakeStep(s, c, ch, w, act, upd, w')
    requires HeldWake(w) <= Held(ctx, self)
    ensures Grant(s, ctx, self, upd)
  {
    hide Held;
    hide FreeingAt;
    if w.WkTest? {
      assert PLock(w.k) in HeldWake(w);
    }
  }

  lemma FreeGrant(s: State, i: nat, f: Free, act: Act, upd: Upd, f': Free, ctx: Ctx, self: nat)
    requires FreeStep(i, f, act, upd, f') && FreeingAt(ctx, i, f) && i < |s.procs|
    ensures Grant(s, ctx, self, upd)
  {
    hide Held;
  }

  lemma SleepGrant(s: State, c: nat, self: nat, w: Why, q: SleepPc, act: Act, upd: Upd, pc': Pc)
    requires c < |s.cpus| && self < |s.procs| && SleepStep(s, c, self, w, q, act, upd, pc')
    ensures Grant(s, Ctx(Sleep(w, q), Idle), self, upd)
  {
  }

  lemma SchedGrant(s: State, self: nat, q: SchedPc, act: Act, upd: Upd, pc': Pc)
    requires SchedStep(s, q, act, upd, pc')
    ensures Grant(s, Ctx(Sched(q), Idle), self, upd)
  {
  }

  lemma ExitGrant(s: State, c: nat, self: nat, q: ExitPc, st: int, act: Act, upd: Upd, pc': Pc)
    requires c < |s.cpus| && self < |s.procs| && ExitStep(s, c, self, q, st, act, upd, pc')
    ensures Grant(s, Ctx(Exit(q, st), Idle), self, upd)
  {
    hide WakeStep;
    if q.ExInit? && pc'.Exit? && pc'.ex.ExInit? && WakeStep(s, c, OnProc(s.init), q.w, act, upd, pc'.ex.w) {
      WakeGrant(s, c, OnProc(s.init), q.w, act, upd, pc'.ex.w, Ctx(Exit(q, st), Idle), self);
    } else if q.ExParent? && pc'.Exit? && pc'.ex.ExParent? {
      WakeGrant(s, c, if q.q.Some? then OnProc(q.q.value) else NoChan, q.w, act, upd, pc'.ex.w, Ctx(Exit(q, st), Idle), self);
    }
  }

  lemma WaitGrant(s: State, self: nat, q: WaitPc, act: Act, upd: Upd, pc': Pc)
    requires self < |s.procs| && WaitStep(s, self, q, act, upd, pc')
    requires q.WtFree? ==> q.j < |s.procs| && s.procs[q.j].state == ZOMBIE
    ensures Grant(s, Ctx(Wait(q), Idle), self, upd)
  {
    hide FreeStep;
    if q.WtFree? && pc'.Wait? && pc'.wt.WtFree? {
      FreeGrant(s, q.j, q.f, act, upd, pc'.wt.f, Ctx(Wait(q), Idle), self);
    }
  }

  lemma ForkGrant(s: State, self: nat, q: ForkPc, act: Act, upd: Upd, pc': Pc)
    requires ForkStep(s, self, q, act, upd, pc')
    requires EarlySlot(Fork(q)).Some? ==> q.i < |s.procs| && s.procs[q.i].state == UNUSED
    requires Slot(Fork(q)).Some? ==> q.i < |s.procs| && s.procs[q.i].state == USED
    ensures Grant(s, Ctx(Fork(q), Idle), self, upd)
  {
    hide FreeStep;
    if q.FkUndo? && pc'.Fork? && pc'.fk.FkUndo? {
      FreeGrant(s, q.i, q.f, act, upd, pc'.fk.f, Ctx(Fork(q), Idle), self);
    }
  }

  lemma KillGrant(s: State, self: nat, q: KillPc, act: Act, upd: Upd, pc': Pc)
    requires KillStep(s, q, act, upd, pc')
    ensures Grant(s, Ctx(Kill(q), Idle), self, upd)
  {
    hide FreeingAt;
  }

  lemma TicksGrant(s: State, self: nat, q: TickPc, act: Act, upd: Upd, pc': Pc)
    requires self < |s.procs| && TicksStep(s, self, q, act, upd, pc')
    ensures Grant(s, Ctx(Ticks(q), Idle), self, upd)
  {
    hide FreeingAt;
    hide StateGrant;
    hide Elapsed;
  }

  lemma OtherGrant(s: State, c: nat, self: nat, pc: Pc, act: Act, upd: Upd, pc': Pc)
    requires c < |s.cpus| && BaseStep(s, c, self, pc, act, upd, pc')
    requires pc.User? || pc.Trap? || pc.Fault? || pc.ForkRet? || pc.ExitCheck?
    ensures Grant(s, Ctx(pc, Idle), self, upd)
  {
    hide FreeingAt;
    hide StateGrant;
  }

  lemma BaseGrant(s: State, c: nat, self: nat, pc: Pc, act: Act, upd: Upd, pc': Pc)
    requires c < |s.cpus| && |s.threads| == |s.procs| && BaseStep(s, c, self, pc, act, upd, pc')
    requires self < |s.threads| ==> pc == s.threads[self].base && SlotOk(s, self)
    requires self >= |s.threads| ==> pc.Sched?
    ensures Grant(s, Ctx(pc, Idle), self, upd)
  {
    hide SchedStep;
    hide SleepStep;
    hide ExitStep;
    hide WaitStep;
    hide ForkStep;
    hide KillStep;
    hide TicksStep;
    hide TrapStep;
    hide UserStep;
    hide Grant;
    match pc
    case Sched(q) => SchedGrant(s, self, q, act, upd, pc');
    case Sleep(w, q) => SleepGrant(s, c, self, w, q, act, upd, pc');
    case Exit(q, st) => ExitGrant(s, c, self, q, st, act, upd, pc');
    case Wait(q) => WaitGrant(s, self, q, act, upd, pc');
    case Fork(q) => ForkGrant(s, self, q, act, upd, pc');
    case Kill(q) => KillGrant(s, self, q, act, upd, pc');
    case Ticks(q) => TicksGrant(s, self, q, act, upd, pc');
    case _ => OtherGrant(s, c, self, pc, act, upd, pc');
  }

  lemma IsrGrant(s: State, c: nat, self: nat, ctx: Ctx, act: Act, upd: Upd, isr': Isr)
    requires c < |s.cpus| && ctx.isr != Idle && IsrStep(s, c, self, ctx.base, ctx.isr, act, upd, isr')
    requires self < |s.procs| || !Yielding(ctx.isr)
    ensures Grant(s, ctx, self, upd)
  {
    hide WakeStep;
    if ctx.isr.ClkWake? && isr'.ClkWake? && WakeStep(s, c, OnTicks, ctx.isr.w, act, upd, isr'.w) {
      WakeGrant(s, c, OnTicks, ctx.isr.w, act, upd, isr'.w, ctx, self);
    }
  }

  /** Every change is made at one of the points that Grant lists. */
  lemma Granted(s: State, c: nat, act: Act, upd: Upd, next: Ctx)
    requires c < |s.cpus| && PlaceOk(s) && SlotsOk(s) && Next(s, c, act, upd, next)
    ensures Grant(s, Active(s, c), Self(s, c), upd)
  {
    hide BaseStep;
    hide IsrStep;
    hide SlotOk;
    var ctx, self := Active(s, c), Self(s, c);
    assert CpuOk(s, c);
    assert self < |s.threads| ==> SlotOk(s, self) && ThreadOk(s, self);
    if ctx.isr != Idle {
      IsrGrant(s, c, self, ctx, act, upd, next.isr);
    } else if next.isr == Idle && BaseStep(s, c, self, ctx.base, act, upd, next.base) {
      BaseGrant(s, c, self, ctx.base, act, upd, next.base);
    }
  }
}
