/** Which locks each program point holds, and the order in which locks are taken. */
module Locks {
  import opened ProcTypes
  import opened Machine

  function HeldWake(w: Wake): set<Lock> {
    if w.WkAt? then {} else {PLock(w.k)}
  }

  function HeldKilled(k: Killed, self: nat): set<Lock> {
    if k.KdLock? then {} else {PLock(self)}
  }

  function HeldFree(f: Free): set<Lock> {
    if f.FrKmemUnlk? then {KmemLock} else {}
  }

  function HeldSched(q: SchedPc): set<Lock> {
    if q.SchTop? || q.SchAt? then {} else {PLock(q.i)}
  }

  function HeldSleep(w: Why, q: SleepPc, self: nat): set<Lock> {
    match q
    case SlLock => {LockOf(w)}
    case SlUnlk => {LockOf(w), PLock(self)}
    case SlRelock => {}
    case _ => {PLock(self)}
  }

  function HeldExit(q: ExitPc, self: nat): set<Lock> {
    match q
    case ExLock => {}
    case ExScan(_) => {WaitLock}
    case ExInit(_, w) => {WaitLock} + HeldWake(w)
    case ExParent(_, w) => {WaitLock} + HeldWake(w)
    case ExSelf => {WaitLock}
    case ExStatus => {WaitLock, PLock(self)}
    case ExZombie => {WaitLock, PLock(self)}
    case ExUnlk => {WaitLock, PLock(self)}
    case ExSwitch => {PLock(self)}
    case ExDead => {PLock(self)}
  }

  function HeldWait(q: WaitPc, self: nat): set<Lock> {
    match q
    case WtLock => {}
    case WtAt(_, _) => {WaitLock}
    case WtTest(j) => {WaitLock, PLock(j)}
    case WtSkip(j) => {WaitLock, PLock(j)}
    case WtBadChild(j) => {WaitLock, PLock(j)}
    case WtFree(j, f, _) => {WaitLock, PLock(j)} + HeldFree(f)
    case WtUnlkChild(j, _) => {WaitLock, PLock(j)}
    case WtDone(_) => {WaitLock}
    case WtKilled(k) => {WaitLock} + HeldKilled(k, self)
    case WtFail(_) => {WaitLock}
  }

  function HeldFork(q: ForkPc): set<Lock> {
    match q
    case FkAt(_) => {}
    case FkPidRead(i) => {PLock(i), PidLock}
    case FkPidBump(i, _) => {PLock(i), PidLock}
    case FkPidUnlk(i, _) => {PLock(i), PidLock}
    case FkMemUnlk(i) => {PLock(i), KmemLock}
    case FkCopyUnlk(i) => {PLock(i), KmemLock}
    case FkWait(_, _) => {}
    case FkParent(_, _) => {WaitLock}
    case FkWaitUnlk(_, _) => {WaitLock}
    case FkRelock(_, _) => {}
    case FkUndo(i, f) => {PLock(i)} + HeldFree(f)
    case _ => {PLock(q.i)}
  }

  function HeldTicks(q: TickPc, self: nat): set<Lock> {
    match q
    case TsLock(_) => {}
    case TsKilled(_, _, _, _, k) => {TicksLock} + HeldKilled(k, self)
    case _ => {TicksLock}
  }

  function HeldPc(pc: Pc, self: nat): set<Lock> {
    match pc
    case User => {}
    case Trap(k) => HeldKilled(k, self)
    case ForkRet => {PLock(self)}
    case Fault(q) => if q.FlLock? then {} else {PLock(self)}
    case ExitCheck(_, _) => {}
    case Sched(q) => HeldSched(q)
    case Sleep(w, q) => HeldSleep(w, q, self)
    case Exit(q, _) => HeldExit(q, self)
    case Wait(q) => HeldWait(q, self)
    case Fork(q) => HeldFork(q)
    case Kill(q) => if q.KlAt? then {} else {PLock(q.i)}
    case Ticks(q) => HeldTicks(q, self)
  }

  function HeldIsr(isr: Isr, self: nat): set<Lock> {
    match isr
    case ClkInc => {TicksLock}
    case ClkWake(w) => {TicksLock} + HeldWake(w)
    case ClkUnlk => {TicksLock}
    case YSet => {PLock(self)}
    case YSwitch => {PLock(self)}
    case YResume(_) => {PLock(self)}
    case YUnlk => {PLock(self)}
    case _ => {}
  }

  /** The locks the CPU holds while it is in this context. */
  function Held(ctx: Ctx, self: nat): set<Lock> {
    if ctx.isr == Idle then HeldPc(ctx.base, self) else HeldIsr(ctx.isr, self)
  }

  /** wait_lock and tickslock come before any p->lock, which comes before pid_lock and kmem.lock. */
  function Rank(l: Lock): nat {
    match l
    case WaitLock => 0
    case TicksLock => 0
    case PLock(_) => 1
    case PidLock => 2
    case KmemLock => 2
  }

  /** `act` is in order for a CPU that holds `h`, and leaves it holding `h'`. */
  predicate InOrder(h: set<Lock>, act: Act, h': set<Lock>) {
    match act
    case Nop => h' == h
    case Acquire(l) => h' == h + {l} && forall x | x in h :: Rank(x) < Rank(l)
    case Release(l) => l in h && h' == h - {l}
  }

  // ----- every step of every function keeps the order -----

  lemma WakeOrder(s: State, c: nat, ch: Chan, w: Wake, act: Act, upd: Upd, w': Wake, outer: Lock)
    requires c < |s.cpus| && WakeStep(s, c, ch, w, act, upd, w') && Rank(outer) == 0
    ensures InOrder({outer} + HeldWake(w), act, {outer} + HeldWake(w')) && !upd.SwitchOut? && !upd.SetIntr?
  {
  }

  lemma KilledOrder(s: State, self: nat, k: Killed, act: Act, upd: Upd, k': Killed, h: set<Lock>)
    requires self < |s.procs| && KilledStep(s, self, k, act, upd, k') && forall x | x in h :: Rank(x) == 0
    ensures InOrder(h + HeldKilled(k, self), act, h + HeldKilled(k', self)) && upd == NoUpd
  {
  }

  lemma FreeOrder(i: nat, f: Free, act: Act, upd: Upd, f': Free, h: set<Lock>)
    requires FreeStep(i, f, act, upd, f') && forall x | x in h :: Rank(x) <= 1
    ensures InOrder(h + HeldFree(f), act, h + HeldFree(f')) && !upd.SetIntr?
  {
  }

  lemma SchedOrder(s: State, q: SchedPc, act: Act, upd: Upd, pc': Pc, self: nat)
    requires SchedStep(s, q, act, upd, pc')
    ensures InOrder(HeldSched(q), act, HeldPc(pc', self)) && !upd.SwitchOut?
    ensures upd == SetIntr(true) ==> HeldPc(pc', self) == {}
  {
  }

  lemma SleepOrder(s: State, c: nat, self: nat, w: Why, q: SleepPc, act: Act, upd: Upd, pc': Pc)
    requires c < |s.cpus| && SleepStep(s, c, self, w, q, act, upd, pc')
    ensures InOrder(HeldSleep(w, q, self), act, HeldPc(pc', self))
    ensures upd == SetIntr(true) ==> HeldPc(pc', self) == {}
  {
  }

  lemma ExitOrder(s: State, c: nat, self: nat, q: ExitPc, st: int, act: Act, upd: Upd, pc': Pc)
    requires c < |s.cpus| && self < |s.procs| && ExitStep(s, c, self, q, st, act, upd, pc')
    ensures InOrder(HeldExit(q, self), act, HeldPc(pc', self))
    ensures upd == SetIntr(true) ==> HeldPc(pc', self) == {}
  {
    hide WakeStep;
    if q.ExInit? && pc'.Exit? && pc'.ex.ExInit? && pc'.ex.j == q.j && WakeStep(s, c, OnProc(s.init), q.w, act, upd, pc'.ex.w) {
      WakeOrder(s, c, OnProc(s.init), q.w, act, upd, pc'.ex.w, WaitLock);
    } else if q.ExParent? && pc'.Exit? && pc'.ex.ExParent? {
      WakeOrder(s, c, if q.q.Some? then OnProc(q.q.value) else NoChan, q.w, act, upd, pc'.ex.w, WaitLock);
    }
  }

  lemma WaitOrder(s: State, self: nat, q: WaitPc, act: Act, upd: Upd, pc': Pc)
    requires self < |s.procs| && WaitStep(s, self, q, act, upd, pc')
    ensures InOrder(HeldWait(q, self), act, HeldPc(pc', self)) && !upd.SwitchOut?
    ensures upd == SetIntr(true) ==> HeldPc(pc', self) == {}
  {
    if q.WtFree? && pc'.Wait? && pc'.wt.WtFree? {
      FreeOrder(q.j, q.f, act, upd, pc'.wt.f, {WaitLock, PLock(q.j)});
    } else if q.WtKilled? && pc'.Wait? && pc'.wt.WtKilled? {
      KilledOrder(s, self, q.k, act, upd, pc'.wt.k, {WaitLock});
    }
  }

  /** The program points of allocproc up to the pid, of allocproc and uvmcopy, and of freeproc. */
  predicate InAlloc(q: ForkPc) {
    q.FkAt? || q.FkTest? || q.FkSkip? || q.FkPidLock? || q.FkPidRead? || q.FkPidBump? || q.FkPidUnlk? || q.FkSetPid? || q.FkUsed?
  }

  predicate InMemory(q: ForkPc) {
    q.FkMem? || q.FkMemUnlk? || q.FkContext? || q.FkCopy? || q.FkCopyUnlk?
  }

  /** The step of fork is in order, and enables interrupts only where no lock is left. */
  ghost predicate ForkInOrder(q: ForkPc, act: Act, upd: Upd, pc': Pc, self: nat) {
    && InOrder(HeldFork(q), act, HeldPc(pc', self)) && !upd.SwitchOut?
    && (upd == SetIntr(true) ==> HeldPc(pc', self) == {})
  }

  lemma AllocOrder(s: State, self: nat, q: ForkPc, act: Act, upd: Upd, pc': Pc)
    requires ForkStep(s, self, q, act, upd, pc') && InAlloc(q)
    ensures ForkInOrder(q, act, upd, pc', self)
  {
  }

  lemma MemoryOrder(s: State, self: nat, q: ForkPc, act: Act, upd: Upd, pc': Pc)
    requires ForkStep(s, self, q, act, upd, pc') && InMemory(q)
    ensures ForkInOrder(q, act, upd, pc', self)
  {
  }

  lemma UndoOrder(s: State, self: nat, q: ForkPc, act: Act, upd: Upd, pc': Pc)
    requires ForkStep(s, self, q, act, upd, pc') && q.FkUndo?
    ensures ForkInOrder(q, act, upd, pc', self)
  {
    if pc'.Fork? && pc'.fk.FkUndo? && pc'.fk.i == q.i && FreeStep(q.i, q.f, act, upd, pc'.fk.f) {
      FreeOrder(q.i, q.f, act, upd, pc'.fk.f, {PLock(q.i)});
    }
  }

  lemma LinkOrder(s: State, self: nat, q: ForkPc, act: Act, upd: Upd, pc': Pc)
    requires ForkStep(s, self, q, act, upd, pc') && !InAlloc(q) && !InMemory(q) && !q.FkUndo?
    ensures ForkInOrder(q, act, upd, pc', self)
  {
  }

  lemma ForkOrder(s: State, self: nat, q: ForkPc, act: Act, upd: Upd, pc': Pc)
    requires ForkStep(s, self, q, act, upd, pc')
    ensures InOrder(HeldFork(q), act, HeldPc(pc', self)) && !upd.SwitchOut?
    ensures upd == SetIntr(true) ==> HeldPc(pc', self) == {}
  {
    hide ForkStep;
    hide InOrder;
    hide HeldFork;
    hide HeldPc;
    hide InAlloc;
    hide InMemory;
    if InAlloc(q) {
      AllocOrder(s, self, q, act, upd, pc');
    } else if InMemory(q) {
      MemoryOrder(s, self, q, act, upd, pc');
    } else if q.FkUndo? {
      UndoOrder(s, self, q, act, upd, pc');
    } else {
      LinkOrder(s, self, q, act, upd, pc');
    }
  }

  lemma TicksOrder(s: State, self: nat, q: TickPc, act: Act, upd: Upd, pc': Pc)
    requires self < |s.procs| && TicksStep(s, self, q, act, upd, pc')
    ensures InOrder(HeldTicks(q, self), act, HeldPc(pc', self)) && !upd.SwitchOut?
    ensures upd == SetIntr(true) ==> HeldPc(pc', self) == {}
  {
    if q.TsKilled? && pc'.Ticks? && pc'.ts.TsKilled? {
      KilledOrder(s, self, q.k, act, upd, pc'.ts.k, {TicksLock});
    }
  }

  lemma TrapOrder(s: State, self: nat, k: Killed, act: Act, upd: Upd, pc': Pc)
    requires self < |s.procs| && TrapStep(s, self, k, act, upd, pc')
    ensures InOrder(HeldKilled(k, self), act, HeldPc(pc', self)) && !upd.SwitchOut?
    ensures upd == SetIntr(true) ==> HeldPc(pc', self) == {}
  {
    if pc'.Trap? {
      KilledOrder(s, self, k, act, upd, pc'.k, {});
      assert {} + HeldKilled(k, self) == HeldKilled(k, self) && {} + HeldKilled(pc'.k, self) == HeldKilled(pc'.k, self);
    }
  }

  lemma BaseOrder(s: State, c: nat, self: nat, pc: Pc, act: Act, upd: Upd, pc': Pc)
    requires c < |s.cpus| && BaseStep(s, c, self, pc, act, upd, pc')
    ensures InOrder(HeldPc(pc, self), act, HeldPc(pc', self))
    ensures upd == SetIntr(true) ==> HeldPc(pc', self) == {}
    ensures upd.SwitchOut? ==> upd.i == self && HeldPc(pc, self) == {PLock(self)} && act == Nop && upd.self == Ctx(pc', Idle)
  {
    hide SchedStep;
    hide WaitStep;
    hide ForkStep;
    hide TicksStep;
    hide TrapStep;
    match pc
    case Sched(q) => SchedOrder(s, q, act, upd, pc', self);
    case Sleep(w, q) => SleepOrder(s, c, self, w, q, act, upd, pc');
    case Exit(q, st) => ExitOrder(s, c, self, q, st, act, upd, pc');
    case Wait(q) => WaitOrder(s, self, q, act, upd, pc');
    case Fork(q) => ForkOrder(s, self, q, act, upd, pc');
    case Ticks(q) => TicksOrder(s, self, q, act, upd, pc');
    case Trap(k) => TrapOrder(s, self, k, act, upd, pc');
    case _ =>
  }

  lemma IsrOrder(s: State, c: nat, self: nat, base: Pc, isr: Isr, act: Act, upd: Upd, isr': Isr)
    requires c < |s.cpus| && IsrStep(s, c, self, base, isr, act, upd, isr')
    ensures InOrder(HeldIsr(isr, self), act, HeldIsr(isr', self))
    ensures upd == SetIntr(true) ==> HeldIsr(isr', self) == {}
    ensures upd.SwitchOut? ==> upd.i == self && HeldIsr(isr, self) == {PLock(self)} && act == Nop && upd.self == Ctx(base, isr')
  {
    hide WakeStep;
    if isr.ClkWake? && isr'.ClkWake? && WakeStep(s, c, OnTicks, isr.w, act, upd, isr'.w) {
      WakeOrder(s, c, OnTicks, isr.w, act, upd, isr'.w, TicksLock);
    }
  }
}
