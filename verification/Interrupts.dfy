/** When interrupts are enabled, and how many of them the tick count has counted. */
module Interrupts {
  import opened ProcTypes
  import opened Machine
  import opened Locks
  import opened Invariant
  import opened CoreSteps
  import opened PlaceSteps
  import opened SlotSteps
  import opened Effects
  import opened Learned
  import opened Outcomes
  import opened TickSteps
  import opened Protocol
  import opened Calls

  // ----- intr and intena -----

  /** The code of a thread, but for the points where swtch resumes it and from which it never returns. */
  predicate Normal(pc: Pc) {
    !pc.Sched? && !pc.ForkRet? && !(pc.Sleep? && pc.sl.SlResume?) && !(pc.Exit? && pc.ex.ExDead?)
  }

  /**
   * A thread runs with interrupts enabled when it holds no lock, and otherwise with intena set;
   * a handler runs with interrupts disabled, and holds its locks with intena clear; a scheduler
   * starts each round with interrupts enabled.
   */
  predicate Flags(ctx: Ctx, cpu: Cpu) {
    && (ctx.isr == Idle && Normal(ctx.base) ==> if cpu.noff == 0 then cpu.intr else cpu.intena)
    && (ctx.isr != Idle && !ctx.isr.YResume? ==> !cpu.intr && (cpu.noff > 0 ==> !cpu.intena))
    && (ctx == Ctx(Sched(SchAt(0)), Idle) ==> cpu.intr)
  }

  /** What sched has saved of intena: set in sleep, clear in a handler. */
  predicate Saved(ctx: Ctx) {
    && (ctx.isr.YResume? ==> !ctx.isr.intena)
    && (ctx.isr == Idle && ctx.base.Sleep? && ctx.base.sl.SlResume? ==> ctx.base.sl.intena)
  }

  ghost predicate FlagsOk(s: State) {
    && (forall c: nat | c < |s.cpus| :: Flags(Active(s, c), s.cpus[c]))
    && (forall t: nat | t < |s.threads| :: Saved(s.threads[t]))
  }

  function CpuThen(cpu: Cpu, act: Act, upd: Upd): Cpu { CpuUpd(CpuAct(cpu, act), upd) }

  /** How the code of a thread deals with both flags. */
  lemma BaseFlags(s: State, c: nat, self: nat, pc: Pc, act: Act, upd: Upd, pc': Pc)
    requires c < |s.cpus| && BaseStep(s, c, self, pc, act, upd, pc') && !pc.Sched?
    ensures upd != SetIntr(false) && !pc'.Sched? && !pc'.ForkRet?
    ensures upd.SetIntena? ==> pc.Sleep? && pc.sl.SlResume? && act == Nop && upd.b == pc.sl.intena
    ensures pc.ForkRet? ==> upd == SetIntr(true)
    ensures pc.Sleep? && pc.sl.SlResume? ==> upd.SetIntena? && pc'.Sleep? && pc'.sl.SlTidy?
    ensures pc'.Sleep? && pc'.sl.SlResume? ==> upd.SwitchOut? && act == Nop && pc'.sl.intena == s.cpus[c].intena && pc.Sleep? && pc.sl.SlSwitch?
    ensures pc'.Exit? && pc'.ex.ExDead? ==> upd.SwitchOut?
    ensures pc == User && pc' == User ==> act == Nop && upd == NoUpd
  {
    NoTick(s, c, self, pc, act, upd, pc');
    hide WakeStep;
    hide FreeStep;
    hide KilledStep;
    hide WaitStep;
    hide ForkStep;
    hide TicksStep;
    match pc
    case Wait(q) => WaitFlags(s, self, q, act, upd, pc');
    case Fork(q) => ForkFlags(s, self, q, act, upd, pc');
    case Ticks(q) => TicksFlags(s, self, q, act, upd, pc');
    case Exit(q, st) => ExitFlags(s, c, self, q, st, act, upd, pc');
    case _ =>
  }

  lemma WaitFlags(s: State, self: nat, q: WaitPc, act: Act, upd: Upd, pc': Pc)
    requires self < |s.procs| && WaitStep(s, self, q, act, upd, pc')
    ensures !upd.SetIntena? && (Normal(pc') || (pc'.Exit? && pc'.ex.ExDead? && upd.SwitchOut?))
  {
  }

  lemma ForkFlags(s: State, self: nat, q: ForkPc, act: Act, upd: Upd, pc': Pc)
    requires ForkStep(s, self, q, act, upd, pc')
    ensures !upd.SetIntena? && (Normal(pc') || (pc'.Exit? && pc'.ex.ExDead? && upd.SwitchOut?))
  {
  }

  lemma TicksFlags(s: State, self: nat, q: TickPc, act: Act, upd: Upd, pc': Pc)
    requires self < |s.procs| && TicksStep(s, self, q, act, upd, pc')
    ensures !upd.SetIntena? && (Normal(pc') || (pc'.Exit? && pc'.ex.ExDead? && upd.SwitchOut?))
  {
  }

  lemma ExitFlags(s: State, c: nat, self: nat, q: ExitPc, st: int, act: Act, upd: Upd, pc': Pc)
    requires c < |s.cpus| && self < |s.procs| && ExitStep(s, c, self, q, st, act, upd, pc')
    ensures !upd.SetIntena? && (Normal(pc') || (pc'.Exit? && pc'.ex.ExDead? && upd.SwitchOut?))
  {
  }

  /** A step of a thread, outside a handler. */
  lemma ThreadFlags(s: State, c: nat, self: nat, pc: Pc, act: Act, upd: Upd, pc': Pc)
    requires c < |s.cpus| && BaseStep(s, c, self, pc, act, upd, pc') && !pc.Sched?
    requires Flags(Ctx(pc, Idle), s.cpus[c]) && Saved(Ctx(pc, Idle)) && s.cpus[c].noff == |HeldPc(pc, self)|
    requires var cpu := CpuThen(s.cpus[c], act, upd); !upd.SwitchOut? ==> cpu.noff == |HeldPc(pc', self)|
    ensures Saved(Ctx(pc', Idle)) && (!upd.SwitchOut? ==> Flags(Ctx(pc', Idle), CpuThen(s.cpus[c], act, upd)))
  {
    BaseFlags(s, c, self, pc, act, upd, pc');
    LockCounts(s, c, self, pc, act, upd, pc');
    hide BaseStep;
    hide HeldPc;
  }

  lemma LockCounts(s: State, c: nat, self: nat, pc: Pc, act: Act, upd: Upd, pc': Pc)
    requires c < |s.cpus| && BaseStep(s, c, self, pc, act, upd, pc')
    ensures upd == SetIntr(true) ==> |HeldPc(pc', self)| == 0
    ensures pc'.Sleep? && pc'.sl.SlTidy? ==> |HeldPc(pc', self)| == 1
    ensures pc.Sleep? && pc.sl.SlSwitch? ==> |HeldPc(pc, self)| == 1
  {
    hide BaseStep;
    hide InOrder;
    hide HeldPc;
    BaseOrder(s, c, self, pc, act, upd, pc');
    OneLock(pc, self);
    OneLock(pc', self);
  }

  lemma OneLock(pc: Pc, self: nat)
    ensures pc.Sleep? && (pc.sl.SlTidy? || pc.sl.SlSwitch?) ==> |HeldPc(pc, self)| == 1
  {
    if pc.Sleep? && (pc.sl.SlTidy? || pc.sl.SlSwitch?) {
      assert HeldPc(pc, self) == {PLock(self)};
    }
  }

  /** A step of a scheduler. */
  lemma SchedFlags(s: State, q: SchedPc, act: Act, upd: Upd, pc': Pc)
    requires SchedStep(s, q, act, upd, pc')
    ensures pc'.Sched? && (pc' == Sched(SchAt(0)) ==> upd == SetIntr(true)) && upd != SetIntr(false)
  {
  }

  /** A step of a handler. */
  lemma HandlerFlags(s: State, c: nat, self: nat, base: Pc, isr: Isr, act: Act, upd: Upd, isr': Isr)
    requires c < |s.cpus| && IsrStep(s, c, self, base, isr, act, upd, isr')
    requires var cpu := s.cpus[c]; Flags(Ctx(base, isr), cpu) && Saved(Ctx(base, isr)) && cpu.noff == |HeldIsr(isr, self)| && (cpu.noff > 0 ==> !cpu.intr)
    requires var cpu := CpuThen(s.cpus[c], act, upd); !upd.SwitchOut? && isr' != Idle ==> cpu.noff == |HeldIsr(isr', self)|
    ensures isr' != Idle ==> Saved(Ctx(base, isr')) && (!upd.SwitchOut? ==> Flags(Ctx(base, isr'), CpuThen(s.cpus[c], act, upd)))
    ensures isr' == Idle ==> act == Nop && upd == SetIntr(true) && s.cpus[c].noff == 0
  {
    if isr.YSwitch? || isr.YResume? || isr.YUnlk? || isr.YSet? {
      assert PLock(self) in HeldIsr(isr, self);
    }
    if isr.ClkLock? || isr.YLock? || isr.Ret? {
      assert HeldIsr(isr, self) == {};
    }
    hide HeldIsr;
  }

  lemma FlagsNext(s: State, c: nat, act: Act, upd: Upd, next: Ctx)
    requires c < |s.cpus| && Next(s, c, act, upd, next)
    requires var ctx, cpu := Active(s, c), s.cpus[c];
      && Flags(ctx, cpu) && Saved(ctx) && cpu.noff == |Held(ctx, Self(s, c))| && (cpu.noff > 0 ==> !cpu.intr)
      && (ctx.isr != Idle ==> LockFree(ctx.base, Self(s, c))) && (!ctx.base.Sched? ==> Self(s, c) < |s.threads|)
    requires Self(s, c) < |s.threads| || Active(s, c).isr != Idle ==>
      !upd.SwitchOut? ==> CpuThen(s.cpus[c], act, upd).noff == |Held(next, Self(s, c))|
    ensures Saved(next) && (!upd.SwitchOut? ==> Flags(next, CpuThen(s.cpus[c], act, upd)))
  {
    var ctx, self := Active(s, c), Self(s, c);
    hide Active;
    hide Self;
    if ctx.isr != Idle {
      HandlerFlags(s, c, self, ctx.base, ctx.isr, act, upd, next.isr);
      hide IsrStep;
      hide HeldIsr;
    } else if next.isr == Idle && BaseStep(s, c, self, ctx.base, act, upd, next.base) {
      if ctx.base.Sched? {
        SchedFlags(s, ctx.base.q, act, upd, next.base);
      } else {
        ThreadFlags(s, c, self, ctx.base, act, upd, next.base);
      }
      hide BaseStep;
    }
  }

  lemma CpuNow(s: State, c: nat, act: Act, upd: Upd, next: Ctx, s': State)
    requires StepBy(s, c, act, upd, next, s')
    ensures c < |s.cpus| == |s'.cpus|
    ensures var cpu, cpu' := CpuThen(s.cpus[c], act, upd), s'.cpus[c];
      cpu'.intr == cpu.intr && cpu'.intena == cpu.intena && cpu'.noff == cpu.noff
  {
  }

  /** What the step of CPU `c` starts from. */
  lemma FlagsBefore(s: State, c: nat)
    requires CoreOk(s) && FlagsOk(s) && c < |s.cpus|
    ensures var ctx, cpu := Active(s, c), s.cpus[c];
      && Flags(ctx, cpu) && Saved(ctx) && cpu.noff == |Held(ctx, Self(s, c))| && (cpu.noff > 0 ==> !cpu.intr)
      && (ctx.isr != Idle ==> LockFree(ctx.base, Self(s, c))) && (!ctx.base.Sched? ==> Self(s, c) < |s.threads|)
  {
    hide LocksOk;
    hide SlotsOk;
    hide Held;
    hide Flags;
    hide OffOk;
    assert CpuOk(s, c);
    assert Self(s, c) < |s.threads| ==> ThreadOk(s, Self(s, c));
  }

  /** Only swtch and the start of a thread change the code that a CPU executes. */
  lemma StaysOn(s: State, c: nat, act: Act, upd: Upd, next: Ctx, s': State)
    requires StepBy(s, c, act, upd, next, s') && CoreOk(s) && !upd.SwitchOut?
    requires Self(s, c) < |s.threads| || Active(s, c).isr != Idle
    ensures Active(s', c) == next && Self(s', c) == Self(s, c)
  {
    if Self(s, c) < |s.threads| {
      ThreadActive(s, c, act, upd, next, s');
    }
    hide CoreOk;
    hide IsrStep;
    hide BaseStep;
  }

  lemma NoffNow(s: State, c: nat)
    requires CoreOk(s) && c < |s.cpus|
    ensures s.cpus[c].noff == |Held(Active(s, c), Self(s, c))|
  {
    hide Held;
    hide LocksOk;
    hide PlaceOk;
    hide SlotsOk;
  }

  lemma ResumedFlags(ctx: Ctx, self: nat, cpu: Cpu)
    requires Resumable(ctx, self) || (ctx.base.Sched? && ctx.isr == Idle && ctx.base.q.SchClear?)
    ensures Flags(ctx, cpu)
  {
  }

  lemma SameFlags(ctx: Ctx, cpu: Cpu, cpu': Cpu)
    requires Flags(ctx, cpu) && cpu'.intr == cpu.intr && cpu'.intena == cpu.intena && cpu'.noff == cpu.noff
    ensures Flags(ctx, cpu')
  {
  }

  /** The CPU that makes the step. */
  lemma FlagsActor(s: State, c: nat, act: Act, upd: Upd, next: Ctx, s': State)
    requires StepBy(s, c, act, upd, next, s') && CoreOk(s) && FlagsOk(s)
    ensures c < |s'.cpus| && Saved(next) && Flags(Active(s', c), s'.cpus[c])
  {
    CoreStep(s, c, act, upd, next, s');
    CpuNow(s, c, act, upd, next, s');
    NextIs(s, c, act, upd, next, s');
    hide StepBy;
    hide CoreOk;
    hide FlagsOk;
    hide Next;
    hide Held;
    hide Flags;
    hide Saved;
    hide CpuThen;
    hide Active;
    hide Self;
    FlagsBefore(s, c);
    NextActive(s, c, act, upd, next, s');
    NoffNow(s', c);
    if !upd.SwitchOut? && (Self(s, c) < |s.threads| || Active(s, c).isr != Idle) {
      StaysOn(s, c, act, upd, next, s');
    }
    FlagsNext(s, c, act, upd, next);
    if Active(s', c) == next && Self(s', c) == Self(s, c) && !upd.SwitchOut? {
      SameFlags(next, CpuThen(s.cpus[c], act, upd), s'.cpus[c]);
    } else if Active(s', c) == next && Self(s', c) == Self(s, c) {
      SwitchedOff(s, c, act, upd, next, s');
    } else {
      ResumedFlags(Active(s', c), Self(s', c), s'.cpus[c]);
    }
  }

  lemma SwitchedOff(s: State, c: nat, act: Act, upd: Upd, next: Ctx, s': State)
    requires StepBy(s, c, act, upd, next, s') && CoreOk(s) && upd.SwitchOut?
    ensures Active(s', c) == Ctx(Sched(SchClear(upd.i)), Idle)
  {
    hide Next;
    hide LocksOk;
    hide NoffOk;
    hide Held;
    hide OffOk;
    hide SlotOk;
  }

  lemma FlagsStep(s: State, c: nat, act: Act, upd: Upd, next: Ctx, s': State)
    requires StepBy(s, c, act, upd, next, s') && CoreOk(s) && FlagsOk(s)
    ensures FlagsOk(s')
  {
    Sizes(s, c, act, upd, next, s');
    FlagsActor(s, c, act, upd, next, s');
    CoreParts(s);
    hide CoreOk;
    hide Flags;
    hide Saved;
    hide Active;
    hide Self;
    forall d: nat | d < |s'.cpus| ensures Flags(Active(s', d), s'.cpus[d]) {
      if d != c {
        hide StepBy;
        OthersKeep(s, c, act, upd, next, s', d);
        assert Flags(Active(s, d), s.cpus[d]);
      }
    }
    forall t: nat | t < |s'.threads| ensures Saved(s'.threads[t]) {
      assert Saved(s.threads[t]);
      ThreadNow(s, c, act, upd, next, s', t);
    }
  }

  lemma ThreadNow(s: State, c: nat, act: Act, upd: Upd, next: Ctx, s': State, t: nat)
    requires StepBy(s, c, act, upd, next, s') && t < |s.threads| == |s'.threads| && Saved(s.threads[t]) && Saved(next)
    ensures Saved(s'.threads[t])
  {
    hide Next;
    hide Self;
    assert Saved(Ctx(ForkRet, Idle));
    hide Saved;
  }

  // ----- over all runs -----

  lemma {:induction false} FlagsRun(states: seq<State>)
    requires Run(states)
    ensures FlagsOk(states[|states| - 1])
  {
    hide Step;
    hide Init;
    hide FlagsOk;
    var n := |states| - 1;
    if n == 0 {
      InitFlags(states[0]);
    } else {
      Shorter(states);
      FlagsRun(states[..n]);
      StepFlags(states[n - 1], states[n]);
    }
  }

  lemma InitFlags(s: State)
    requires Init(s)
    ensures FlagsOk(s)
  {
    forall c: nat | c < |s.cpus| ensures Active(s, c) == Ctx(Sched(SchTop), Idle) {
      assert s.cpus[c].ctx == Ctx(Sched(SchTop), Idle);
    }
  }

  lemma StepFlags(s: State, s': State)
    requires Reachable(s) && Step(s, s') && FlagsOk(s)
    ensures FlagsOk(s')
  {
    hide FlagsOk;
    hide StepBy;
    hide CallsOk;
    ReachableCalls(s);
    hide Reachable;
    hide Inv;
    Parts(s);
    var c: nat, act: Act, upd: Upd, next: Ctx :| StepBy(s, c, act, upd, next, s');
    FlagsStep(s, c, act, upd, next, s');
  }

  lemma ReachableFlags(s: State)
    requires Reachable(s)
    ensures FlagsOk(s)
  {
    var states: seq<State> :| Run(states) && states[|states| - 1] == s;
    FlagsRun(states);
  }

  /** A thread that holds no lock can be interrupted: user code always, kernel code too. */
  lemma ThreadEnabled(s: State, c: nat)
    requires Reachable(s) && c < |s.cpus| && Active(s, c).isr == Idle && Normal(Active(s, c).base)
    ensures s.cpus[c].noff == 0 <==> s.cpus[c].intr
    ensures Active(s, c).base == User ==> s.cpus[c].intr
  {
    ReachableFlags(s);
    ReachableCalls(s);
    Parts(s);
    hide Reachable;
    assert Flags(Active(s, c), s.cpus[c]);
    hide LocksOk;
    hide PlaceOk;
    hide SlotsOk;
  }

  /** The scheduler can be interrupted before each round over the table. */
  lemma RoundEnabled(s: State, c: nat)
    requires Reachable(s) && c < |s.cpus| && Active(s, c) == Ctx(Sched(SchAt(0)), Idle)
    ensures s.cpus[c].intr
  {
    ReachableFlags(s);
    hide Reachable;
    assert Flags(Active(s, c), s.cpus[c]);
  }

  /** A handler runs with interrupts disabled up to its end. */
  lemma HandlerDisabled(s: State, c: nat)
    requires Reachable(s) && c < |s.cpus| && Active(s, c).isr != Idle
    ensures !s.cpus[c].intr
  {
    ReachableFlags(s);
    ReachableCalls(s);
    Parts(s);
    hide Reachable;
    assert Flags(Active(s, c), s.cpus[c]);
    NoffNow(s, c);
    if Active(s, c).isr.YResume? {
      assert PLock(Self(s, c)) in Held(Active(s, c), Self(s, c));
    }
    hide Held;
    hide LocksOk;
    hide PlaceOk;
    hide SlotsOk;
  }

  /** What sched saves of intena belongs to the thread: set when it sleeps, clear when a handler gives up its CPU. */
  lemma IntenaSaved(s: State, t: nat)
    requires Reachable(s) && t < |s.threads|
    ensures s.threads[t].isr.YResume? ==> !s.threads[t].isr.intena
    ensures s.threads[t].isr == Idle && s.threads[t].base.Sleep? && s.threads[t].base.sl.SlResume? ==> s.threads[t].base.sl.intena
  {
    ReachableFlags(s);
    hide Reachable;
    assert Saved(s.threads[t]);
  }

  // ----- the tick count -----

  /** CPU 0 takes a timer interrupt: it goes from enabled to disabled without taking a lock. */
  predicate Interrupted0(s: State, s': State) {
    |s.cpus| > 0 && |s'.cpus| > 0 && s.cpus[0].intr && !s'.cpus[0].intr && s'.held == s.held
  }

  ghost function Interrupts0(states: seq<State>): nat {
    if |states| < 2 then 0
    else Interrupts0(states[..|states| - 1]) + if Interrupted0(states[|states| - 2], states[|states| - 1]) then 1 else 0
  }

  /** An interrupt of CPU 0 that clockintr has not counted yet. */
  predicate Uncounted(s: State) {
    |s.cpus| > 0 && (Active(s, 0).isr.ClkLock? || Active(s, 0).isr.ClkInc?)
  }

  /** The tick count is the number of timer interrupts of CPU 0, the one in progress aside. */
  lemma {:induction false} TicksAreInterrupts(states: seq<State>)
    requires Run(states)
    ensures var s := states[|states| - 1];
      s.now + (if Uncounted(s) then 1 else 0) == states[0].now + Interrupts0(states)
  {
    var n := |states| - 1;
    if n == 0 {
      InitIdle(states[0]);
    } else {
      Shorter(states);
      TicksAreInterrupts(states[..n]);
      hide Run;
      hide Reachable;
      hide Uncounted;
      hide Interrupted0;
      InterruptStep(states[n - 1], states[n]);
    }
  }

  lemma Shorter(states: seq<State>)
    requires Run(states) && |states| > 1
    ensures var n := |states| - 1; var shorter := states[..n];
      && Run(shorter) && shorter[0] == states[0] && shorter[n - 1] == states[n - 1]
      && Reachable(states[n - 1]) && Step(states[n - 1], states[n])
  {
    LastReachable(states, |states| - 1);
    hide Step;
    hide Init;
    hide Reachable;
  }

  lemma LastReachable(states: seq<State>, n: nat)
    requires 0 < n <= |states| && Run(states)
    ensures Reachable(states[n - 1])
  {
    hide Step;
    hide Init;
    assert Run(states[..n]) && states[..n][|states[..n]| - 1] == states[n - 1];
  }

  lemma InitIdle(s: State)
    requires Init(s)
    ensures !Uncounted(s)
  {
    if |s.cpus| > 0 {
      assert s.cpus[0].ctx == Ctx(Sched(SchTop), Idle);
    }
  }

  lemma InterruptStep(s: State, s': State)
    requires Reachable(s) && Step(s, s')
    ensures s'.now + (if Uncounted(s') then 1 else 0)
      == s.now + (if Uncounted(s) then 1 else 0) + if Interrupted0(s, s') then 1 else 0
  {
    ReachableCalls(s);
    hide Reachable;
    hide StepBy;
    hide Inv;
    hide CallsOk;
    Parts(s);
    var c: nat, act: Act, upd: Upd, next: Ctx :| StepBy(s, c, act, upd, next, s');
    if c == 0 {
      InterruptHere(s, act, upd, next, s');
    } else {
      InterruptElsewhere(s, c, act, upd, next, s');
    }
  }

  lemma InterruptHere(s: State, act: Act, upd: Upd, next: Ctx, s': State)
    requires StepBy(s, 0, act, upd, next, s') && CoreOk(s)
    ensures s'.now + (if Uncounted(s') then 1 else 0)
      == s.now + (if Uncounted(s) then 1 else 0) + if Interrupted0(s, s') then 1 else 0
  {
    hide StepBy;
    hide CoreOk;
    hide Self;
    hide Active;
    Counting(s, 0, act, upd, next, s');
    CpuNow(s, 0, act, upd, next, s');
    NextIs(s, 0, act, upd, next, s');
    CpuZeroStep(s, act, upd, next);
    hide Next;
    HeldNow(s, 0, act, upd, next, s');
    NextActive(s, 0, act, upd, next, s');
    if upd == SetIntr(false) || upd.Tick? || next.isr.ClkInc? {
      SameCode(s, act, upd, next, s');
    }
  }

  /** An interrupt does not leave its thread, or scheduler, before it yields. */
  lemma SameCode(s: State, act: Act, upd: Upd, next: Ctx, s': State)
    requires StepBy(s, 0, act, upd, next, s') && (next.isr.ClkLock? || next.isr.ClkInc? || next.isr.ClkWake?)
    ensures Active(s', 0) == next
  {
    hide BaseStep;
    hide HeldAfter;
    hide ProcsAfter;
  }

  lemma InterruptElsewhere(s: State, c: nat, act: Act, upd: Upd, next: Ctx, s': State)
    requires StepBy(s, c, act, upd, next, s') && c != 0 && CoreOk(s) && IsrsOk(s)
    ensures s'.now == s.now && (Uncounted(s') <==> Uncounted(s)) && !Interrupted0(s, s')
  {
    hide StepBy;
    hide Self;
    hide Active;
    CoreParts(s);
    hide CoreOk;
    Counting(s, c, act, upd, next, s');
    CpuNow(s, c, act, upd, next, s');
    NextIs(s, c, act, upd, next, s');
    assert IsrFits(Active(s, c).isr, c, Self(s, c) < |s.threads|);
    OtherCpuStep(s, c, act, upd, next);
    hide Next;
    OthersKeep(s, c, act, upd, next, s', 0);
  }

  lemma HeldNow(s: State, c: nat, act: Act, upd: Upd, next: Ctx, s': State)
    requires StepBy(s, c, act, upd, next, s')
    ensures s'.held == s.held <==> act == Nop || (act.Release? && act.l !in s.held)
  {
    hide Next;
    if act.Acquire? {
      assert act.l in s'.held;
    } else if act.Release? && act.l in s.held {
      assert act.l !in s'.held;
    }
  }

  /** CPU 0: an interrupt is uncounted from its start until clockintr increments the tick count. */
  lemma CpuZeroStep(s: State, act: Act, upd: Upd, next: Ctx)
    requires |s.cpus| > 0 && Next(s, 0, act, upd, next)
    ensures var at, to := Active(s, 0).isr, next.isr;
      && (upd.Tick? <==> at.ClkInc?) && (at.ClkInc? ==> to.ClkWake?) && (at.ClkLock? ==> to.ClkInc?)
      && (to.ClkLock? ==> at == Idle && act == Nop && upd == SetIntr(false) && s.cpus[0].intr)
      && (to.ClkInc? ==> at.ClkLock?)
      && (upd == SetIntr(false) ==> to.ClkLock?)
  {
    var ctx, self := Active(s, 0), Self(s, 0);
    if ctx.isr == Idle && next.isr == Idle && BaseStep(s, 0, self, ctx.base, act, upd, next.base) {
      NoTick(s, 0, self, ctx.base, act, upd, next.base);
    }
    hide BaseStep;
    hide WakeStep;
  }

  lemma NoTick(s: State, c: nat, self: nat, pc: Pc, act: Act, upd: Upd, pc': Pc)
    requires c < |s.cpus| && BaseStep(s, c, self, pc, act, upd, pc')
    ensures !upd.Tick? && upd != SetIntr(false)
  {
  }

  /** The other CPUs do not touch it. */
  lemma OtherCpuStep(s: State, c: nat, act: Act, upd: Upd, next: Ctx)
    requires c < |s.cpus| && c != 0 && Next(s, c, act, upd, next) && IsrFits(Active(s, c).isr, c, Self(s, c) < |s.threads|)
    ensures !upd.Tick?
  {
    var ctx, self := Active(s, c), Self(s, c);
    if ctx.isr == Idle && next.isr == Idle && BaseStep(s, c, self, ctx.base, act, upd, next.base) {
      NoTick(s, c, self, ctx.base, act, upd, next.base);
    }
    hide BaseStep;
    hide WakeStep;
  }
}
