/**
 * The process protocol of lab traps/kernel/proc.c as a machine of interleaved steps, with its two
 * clients clockintr (trap.c) and sys_sleep (sysproc.c).
 *
 * Any number of CPUs run any number of process slots.  One step is one lock operation or one
 * assignment; every other CPU may run between two steps.  A lock belongs to the CPU that took it,
 * so it stays held across swtch, which only moves control between a process's kernel thread and
 * the scheduler of the CPU.  A context is a program point of the kernel code (`Pc`) and, on top of
 * it, the program point of a timer interrupt that arrived there (`Isr`).
 */
module Machine {
  import opened ProcTypes

  datatype Lock = WaitLock | TicksLock | PidLock | KmemLock | PLock(p: nat)

  // What a process sleeps on: a process (wait) or &ticks (sys_sleep).
  datatype Chan = NoChan | OnProc(p: nat) | OnTicks

  datatype Proc = Proc(state: ProcState, chan: Chan, killed: bool, xstate: int, pid: nat, parent: Option<nat>)

  // The loop of wakeup: about to look at slot k, testing it, about to release it.
  datatype Wake = WkAt(k: nat) | WkTest(k: nat) | WkNext(k: nat)

  // killed()
  datatype Killed = KdLock | KdRead | KdUnlk(killed: bool)

  // freeproc; the calls of kfree take and release kmem.lock
  datatype Free = FrKmem | FrKmemUnlk | FrPid | FrParent | FrChan | FrKilled | FrXstate | FrState

  datatype SchedPc =
    | SchTop | SchAt(i: nat) | SchTest(i: nat) | SchCpu(i: nat) | SchGo(i: nat)
    | SchIn(i: nat)                 // the CPU executes the thread of slot i
    | SchClear(i: nat) | SchUnlk(i: nat)
    | SchSkip(i: nat)               // the slot is not RUNNABLE

  // Who called sleep: wait, or sys_sleep for n ticks from the tick t0.  The unbounded tick counts
  // `start` and `seen` are ghost: when t0 was read, and when the loop condition was last tested.
  datatype Why = InWait | InTicks(n: nat, t0: nat, start: nat, seen: nat)

  datatype SleepPc =
    | SlLock | SlUnlk | SlChan | SlState | SlSwitch
    | SlResume(intena: bool)        // switched out; the scheduler comes back here
    | SlTidy | SlUnlock | SlRelock

  datatype ExitPc =
    | ExLock | ExScan(j: nat) | ExInit(j: nat, w: Wake) | ExParent(q: Option<nat>, w: Wake)
    | ExSelf | ExStatus | ExZombie | ExUnlk | ExSwitch | ExDead

  // Why wait returns -1.
  datatype GiveUp = NoChildren | WasKilled | BadAddress

  // What wait returns for a child: its pid, and its exit status for the caller.
  datatype Got = Got(pid: nat, xstate: int)

  datatype WaitPc =
    | WtLock | WtAt(j: nat, kids: bool) | WtTest(j: nat) | WtSkip(j: nat) | WtBadChild(j: nat)
    | WtFree(j: nat, f: Free, got: Got) | WtUnlkChild(j: nat, got: Got) | WtDone(got: Got)
    | WtKilled(k: Killed) | WtFail(why: GiveUp)

  datatype ForkPc =
    | FkAt(i: nat) | FkTest(i: nat) | FkSkip(i: nat)
    | FkPidLock(i: nat) | FkPidRead(i: nat) | FkPidBump(i: nat, pid: nat) | FkPidUnlk(i: nat, pid: nat)
    | FkSetPid(i: nat, pid: nat) | FkUsed(i: nat)
    | FkMem(i: nat) | FkMemUnlk(i: nat) | FkContext(i: nat) | FkCopy(i: nat) | FkCopyUnlk(i: nat)
    | FkUnlk(i: nat, pid: nat) | FkWait(i: nat, pid: nat) | FkParent(i: nat, pid: nat) | FkWaitUnlk(i: nat, pid: nat)
    | FkRelock(i: nat, pid: nat) | FkRun(i: nat, pid: nat) | FkUnlk2(i: nat, pid: nat)
    | FkUndo(i: nat, f: Free) | FkUndoUnlk(i: nat)

  // kill(pid).  `known` is ghost: pid was that of some process when kill was called.
  datatype KillPc =
    | KlAt(i: nat, pid: int, known: bool) | KlTest(i: nat, pid: int, known: bool) | KlSkip(i: nat, pid: int, known: bool)
    | KlSet(i: nat, pid: int) | KlWake(i: nat, pid: int) | KlUnlk(i: nat, pid: int)

  // setkilled(p) after an unexpected exception
  datatype FaultPc = FlLock | FlSet | FlUnlk

  datatype TickPc =
    | TsLock(n: nat) | TsRead(n: nat) | TsLoop(n: nat, t0: nat, start: nat)
    | TsKilled(n: nat, t0: nat, start: nat, seen: nat, k: Killed) | TsOk(n: nat, start: nat) | TsFail

  datatype Pc =
    | User                          // user code, or kernel code outside this model
    | Trap(k: Killed)               // `if(killed(p)) exit(-1)` in usertrap
    | ForkRet
    | Fault(fl: FaultPc)
    | ExitCheck(killed: bool, status: int)  // `if(p == initproc) panic("init exiting")` in exit
    | Sched(q: SchedPc)
    | Sleep(why: Why, sl: SleepPc)
    | Exit(ex: ExitPc, status: int)
    | Wait(wt: WaitPc)
    | Fork(fk: ForkPc)
    | Kill(kl: KillPc)
    | Ticks(ts: TickPc)

  // A timer interrupt taken in the kernel or in user code, up to its return.
  datatype Isr =
    | Idle
    | ClkLock | ClkInc | ClkWake(w: Wake) | ClkUnlk
    | Decide | YLock | YSet | YSwitch
    | YResume(intena: bool)         // switched out; the scheduler comes back here
    | YUnlk
    | Ret(gave: bool)               // `gave`: the process has given up the CPU and got it back

  datatype Ctx = Ctx(base: Pc, isr: Isr)

  // struct cpu: its scheduler context, c->proc, noff, intena, and whether interrupts are enabled.
  datatype Cpu = Cpu(ctx: Ctx, proc: Option<nat>, noff: nat, intena: bool, intr: bool)

  // `exited` and `marked` are ghost: the status of every process that has become a zombie, by pid,
  // and the pids of the slots that kill and setkilled have marked.
  datatype State = State(
    procs: seq<Proc>, threads: seq<Ctx>, cpus: seq<Cpu>, held: map<Lock, nat>,
    nextpid: nat, now: nat, init: nat, exited: map<nat, int>, marked: set<nat>)

  // `ticks` is a 32-bit counter; `now` counts the ticks without wrapping.
  function Ticks32(s: State): nat { s.now % 0x1_0000_0000 }

  datatype Act = Nop | Acquire(l: Lock) | Release(l: Lock)

  datatype Upd =
    | NoUpd
    | SetState(i: nat, st: ProcState) | SetChan(i: nat, ch: Chan) | SetKilled(i: nat, k: bool)
    | SetXstate(i: nat, x: int) | SetPid(i: nat, pid: nat) | SetParent(i: nat, q: Option<nat>)
    | BumpPid | Tick
    | SetContext(i: nat)            // p->context.ra = forkret
    | SetCpuProc(q: Option<nat>) | SetIntr(on: bool) | SetIntena(b: bool)
    | SwitchOut(i: nat, self: Ctx)  // swtch from thread i, whose context is saved, to the scheduler

  // ----- which context a CPU executes -----

  function InThread(pc: Pc): Option<nat> {
    if pc.Sched? && pc.q.SchIn? then Some(pc.q.i) else None
  }

  /** The slot whose thread CPU `c` executes, |procs| when it executes its scheduler. */
  function Self(s: State, c: nat): nat
    requires c < |s.cpus|
  {
    var q := InThread(s.cpus[c].ctx.base);
    if q.Some? && q.value < |s.threads| then q.value else |s.threads|
  }

  function Active(s: State, c: nat): Ctx
    requires c < |s.cpus|
  {
    if Self(s, c) < |s.threads| then s.threads[Self(s, c)] else s.cpus[c].ctx
  }

  // ----- one step of each function -----

  ghost predicate WakeStep(s: State, c: nat, ch: Chan, w: Wake, act: Act, upd: Upd, w': Wake)
    requires c < |s.cpus|
  {
    w.k < |s.procs| && match w
      case WkAt(k) =>
        && upd == NoUpd
        && if s.cpus[c].proc == Some(k) then act == Nop && w' == WkAt(k + 1)
           else act == Acquire(PLock(k)) && w' == WkTest(k)
      case WkTest(k) =>
        && act == Nop && w' == WkNext(k)
        && upd == (if s.procs[k].state == SLEEPING && s.procs[k].chan == ch then SetState(k, RUNNABLE) else NoUpd)
      case WkNext(k) => act == Release(PLock(k)) && upd == NoUpd && w' == WkAt(k + 1)
  }

  ghost predicate KilledStep(s: State, self: nat, k: Killed, act: Act, upd: Upd, k': Killed)
    requires self < |s.procs|
  {
    upd == NoUpd && match k
      case KdLock => act == Acquire(PLock(self)) && k' == KdRead
      case KdRead => act == Nop && k' == KdUnlk(s.procs[self].killed)
      case KdUnlk(_) => false
  }

  ghost predicate FreeStep(i: nat, f: Free, act: Act, upd: Upd, f': Free) {
    match f
    case FrKmem =>
      && upd == NoUpd
      && ((act == Acquire(KmemLock) && f' == FrKmemUnlk) || (act == Nop && f' == FrPid))
    case FrKmemUnlk => act == Release(KmemLock) && upd == NoUpd && f' == FrKmem
    case FrPid => act == Nop && upd == SetPid(i, 0) && f' == FrParent
    case FrParent => act == Nop && upd == SetParent(i, None) && f' == FrChan
    case FrChan => act == Nop && upd == SetChan(i, NoChan) && f' == FrKilled
    case FrKilled => act == Nop && upd == SetKilled(i, false) && f' == FrXstate
    case FrXstate => act == Nop && upd == SetXstate(i, 0) && f' == FrState
    case FrState => false
  }

  ghost predicate SchedStep(s: State, q: SchedPc, act: Act, upd: Upd, pc': Pc) {
    match q
    case SchTop => act == Nop && upd == SetIntr(true) && pc' == Sched(SchAt(0))
    case SchAt(i) =>
      && upd == NoUpd
      && if i < |s.procs| then act == Acquire(PLock(i)) && pc' == Sched(SchTest(i))
         else act == Nop && pc' == Sched(SchTop)
    case SchTest(i) =>
      && act == Nop && i < |s.procs|
      && if s.procs[i].state == RUNNABLE then upd == SetState(i, RUNNING) && pc' == Sched(SchCpu(i))
         else upd == NoUpd && pc' == Sched(SchSkip(i))
    case SchCpu(i) => act == Nop && upd == SetCpuProc(Some(i)) && pc' == Sched(SchGo(i))
    case SchGo(i) => act == Nop && upd == NoUpd && pc' == Sched(SchIn(i))
    case SchIn(i) => false
    case SchClear(i) => act == Nop && upd == SetCpuProc(None) && pc' == Sched(SchUnlk(i))
    case SchUnlk(i) => act == Release(PLock(i)) && upd == NoUpd && pc' == Sched(SchAt(i + 1))
    case SchSkip(i) => act == Release(PLock(i)) && upd == NoUpd && pc' == Sched(SchAt(i + 1))
  }

  function LockOf(w: Why): Lock { if w.InWait? then WaitLock else TicksLock }

  function ChanOf(w: Why, self: nat): Chan { if w.InWait? then OnProc(self) else OnTicks }

  /** Where sleep returns to. */
  function After(w: Why): Pc {
    match w
    case InWait => Wait(WtAt(0, false))
    case InTicks(n, t0, start, _) => Ticks(TsLoop(n, t0, start))
  }

  ghost predicate SleepStep(s: State, c: nat, self: nat, w: Why, q: SleepPc, act: Act, upd: Upd, pc': Pc)
    requires c < |s.cpus|
  {
    match q
    case SlLock => act == Acquire(PLock(self)) && upd == NoUpd && pc' == Sleep(w, SlUnlk)
    case SlUnlk => act == Release(LockOf(w)) && upd == NoUpd && pc' == Sleep(w, SlChan)
    case SlChan => act == Nop && upd == SetChan(self, ChanOf(w, self)) && pc' == Sleep(w, SlState)
    case SlState => act == Nop && upd == SetState(self, SLEEPING) && pc' == Sleep(w, SlSwitch)
    case SlSwitch =>
      && act == Nop && pc' == Sleep(w, SlResume(s.cpus[c].intena))
      && upd == SwitchOut(self, Ctx(pc', Idle))
    case SlResume(b) => act == Nop && upd == SetIntena(b) && pc' == Sleep(w, SlTidy)
    case SlTidy => act == Nop && upd == SetChan(self, NoChan) && pc' == Sleep(w, SlUnlock)
    case SlUnlock => act == Release(PLock(self)) && upd == NoUpd && pc' == Sleep(w, SlRelock)
    case SlRelock => act == Acquire(LockOf(w)) && upd == NoUpd && pc' == After(w)
  }

  ghost predicate ExitStep(s: State, c: nat, self: nat, q: ExitPc, st: int, act: Act, upd: Upd, pc': Pc)
    requires c < |s.cpus| && self < |s.procs|
  {
    match q
    case ExLock => act == Acquire(WaitLock) && upd == NoUpd && pc' == Exit(ExScan(0), st)
    case ExScan(j) =>
      && act == Nop
      && if j >= |s.procs| then upd == NoUpd && pc' == Exit(ExParent(s.procs[self].parent, WkAt(0)), st)
         else if s.procs[j].parent == Some(self) then upd == SetParent(j, Some(s.init)) && pc' == Exit(ExInit(j, WkAt(0)), st)
         else upd == NoUpd && pc' == Exit(ExScan(j + 1), st)
    case ExInit(j, w) =>
      || (w == WkAt(|s.procs|) && act == Nop && upd == NoUpd && pc' == Exit(ExScan(j + 1), st))
      || (pc'.Exit? && pc'.status == st && pc'.ex.ExInit? && pc'.ex.j == j && WakeStep(s, c, OnProc(s.init), w, act, upd, pc'.ex.w))
    case ExParent(p, w) =>
      || (w == WkAt(|s.procs|) && act == Nop && upd == NoUpd && pc' == Exit(ExSelf, st))
      || (pc'.Exit? && pc'.status == st && pc'.ex.ExParent? && pc'.ex.q == p
          && WakeStep(s, c, if p.Some? then OnProc(p.value) else NoChan, w, act, upd, pc'.ex.w))
    case ExSelf => act == Acquire(PLock(self)) && upd == NoUpd && pc' == Exit(ExStatus, st)
    case ExStatus => act == Nop && upd == SetXstate(self, st) && pc' == Exit(ExZombie, st)
    case ExZombie => act == Nop && upd == SetState(self, ZOMBIE) && pc' == Exit(ExUnlk, st)
    case ExUnlk => act == Release(WaitLock) && upd == NoUpd && pc' == Exit(ExSwitch, st)
    case ExSwitch => act == Nop && upd == SwitchOut(self, Ctx(pc', Idle)) && pc' == Exit(ExDead, st)
    case ExDead => false
  }

  ghost predicate WaitStep(s: State, self: nat, q: WaitPc, act: Act, upd: Upd, pc': Pc)
    requires self < |s.procs|
  {
    match q
    case WtLock => act == Acquire(WaitLock) && upd == NoUpd && pc' == Wait(WtAt(0, false))
    case WtAt(j, kids) =>
      && upd == NoUpd
      && if j >= |s.procs| then act == Nop && pc' == Wait(if kids then WtKilled(KdLock) else WtFail(NoChildren))
         else if s.procs[j].parent == Some(self) then act == Acquire(PLock(j)) && pc' == Wait(WtTest(j))
         else act == Nop && pc' == Wait(WtAt(j + 1, kids))
    case WtTest(j) =>
      && act == Nop && upd == NoUpd && j < |s.procs|
      && if s.procs[j].state == ZOMBIE
         then pc' == Wait(WtFree(j, FrKmem, Got(s.procs[j].pid, s.procs[j].xstate))) || pc' == Wait(WtBadChild(j))
         else pc' == Wait(WtSkip(j))
    case WtSkip(j) => act == Release(PLock(j)) && upd == NoUpd && pc' == Wait(WtAt(j + 1, true))
    case WtBadChild(j) => act == Release(PLock(j)) && upd == NoUpd && pc' == Wait(WtFail(BadAddress))
    case WtFree(j, f, got) =>
      || (f == FrState && act == Nop && upd == SetState(j, UNUSED) && pc' == Wait(WtUnlkChild(j, got)))
      || (pc'.Wait? && pc'.wt.WtFree? && pc'.wt.j == j && pc'.wt.got == got && FreeStep(j, f, act, upd, pc'.wt.f))
    case WtUnlkChild(j, got) => act == Release(PLock(j)) && upd == NoUpd && pc' == Wait(WtDone(got))
    case WtDone(_) => act == Release(WaitLock) && upd == SetIntr(true) && pc' == User
    case WtKilled(k) =>
      || (k.KdUnlk? && act == Release(PLock(self)) && upd == NoUpd
          && pc' == if k.killed then Wait(WtFail(WasKilled)) else Sleep(InWait, SlLock))
      || (pc'.Wait? && pc'.wt.WtKilled? && KilledStep(s, self, k, act, upd, pc'.wt.k))
    case WtFail(_) => act == Release(WaitLock) && upd == SetIntr(true) && pc' == User
  }

  ghost predicate ForkStep(s: State, self: nat, q: ForkPc, act: Act, upd: Upd, pc': Pc) {
    match q
    case FkAt(i) =>
      && if i < |s.procs| then act == Acquire(PLock(i)) && upd == NoUpd && pc' == Fork(FkTest(i))
         else act == Nop && upd == SetIntr(true) && pc' == User
    case FkTest(i) =>
      && act == Nop && upd == NoUpd && i < |s.procs|
      && pc' == Fork(if s.procs[i].state == UNUSED then FkPidLock(i) else FkSkip(i))
    case FkSkip(i) => act == Release(PLock(i)) && upd == NoUpd && pc' == Fork(FkAt(i + 1))
    case FkPidLock(i) => act == Acquire(PidLock) && upd == NoUpd && pc' == Fork(FkPidRead(i))
    case FkPidRead(i) => act == Nop && upd == NoUpd && pc' == Fork(FkPidBump(i, s.nextpid))
    case FkPidBump(i, pid) => act == Nop && upd == BumpPid && pc' == Fork(FkPidUnlk(i, pid))
    case FkPidUnlk(i, pid) => act == Release(PidLock) && upd == NoUpd && pc' == Fork(FkSetPid(i, pid))
    case FkSetPid(i, pid) => act == Nop && upd == SetPid(i, pid) && pc' == Fork(FkUsed(i))
    case FkUsed(i) => act == Nop && upd == SetState(i, USED) && pc' == Fork(FkMem(i))
    case FkMem(i) =>
      && upd == NoUpd
      && ((act == Acquire(KmemLock) && pc' == Fork(FkMemUnlk(i)))
          || (act == Nop && (pc' == Fork(FkContext(i)) || pc' == Fork(FkUndo(i, FrKmem)))))
    case FkMemUnlk(i) => act == Release(KmemLock) && upd == NoUpd && pc' == Fork(FkMem(i))
    case FkContext(i) => act == Nop && upd == SetContext(i) && pc' == Fork(FkCopy(i))
    case FkCopy(i) =>
      && upd == NoUpd
      && ((act == Acquire(KmemLock) && pc' == Fork(FkCopyUnlk(i)))
          || (act == Nop && ((i < |s.procs| && pc' == Fork(FkUnlk(i, s.procs[i].pid))) || pc' == Fork(FkUndo(i, FrKmem)))))
    case FkCopyUnlk(i) => act == Release(KmemLock) && upd == NoUpd && pc' == Fork(FkCopy(i))
    case FkUnlk(i, pid) => act == Release(PLock(i)) && upd == NoUpd && pc' == Fork(FkWait(i, pid))
    case FkWait(i, pid) => act == Acquire(WaitLock) && upd == NoUpd && pc' == Fork(FkParent(i, pid))
    case FkParent(i, pid) => act == Nop && upd == SetParent(i, Some(self)) && pc' == Fork(FkWaitUnlk(i, pid))
    case FkWaitUnlk(i, pid) => act == Release(WaitLock) && upd == NoUpd && pc' == Fork(FkRelock(i, pid))
    case FkRelock(i, pid) => act == Acquire(PLock(i)) && upd == NoUpd && pc' == Fork(FkRun(i, pid))
    case FkRun(i, pid) => act == Nop && upd == SetState(i, RUNNABLE) && pc' == Fork(FkUnlk2(i, pid))
    case FkUnlk2(i, _) => act == Release(PLock(i)) && upd == SetIntr(true) && pc' == User
    case FkUndo(i, f) =>
      || (f == FrState && act == Nop && upd == SetState(i, UNUSED) && pc' == Fork(FkUndoUnlk(i)))
      || (pc'.Fork? && pc'.fk.FkUndo? && pc'.fk.i == i && FreeStep(i, f, act, upd, pc'.fk.f))
    case FkUndoUnlk(i) => act == Release(PLock(i)) && upd == SetIntr(true) && pc' == User
  }

  ghost predicate KillStep(s: State, q: KillPc, act: Act, upd: Upd, pc': Pc) {
    match q
    case KlAt(i, pid, known) =>
      && if i < |s.procs| then act == Acquire(PLock(i)) && upd == NoUpd && pc' == Kill(KlTest(i, pid, known))
         else act == Nop && upd == SetIntr(true) && pc' == User
    case KlTest(i, pid, known) =>
      && act == Nop && upd == NoUpd && i < |s.procs|
      && pc' == Kill(if s.procs[i].pid == pid then KlSet(i, pid) else KlSkip(i, pid, known))
    case KlSkip(i, pid, known) => act == Release(PLock(i)) && upd == NoUpd && pc' == Kill(KlAt(i + 1, pid, known))
    case KlSet(i, pid) => act == Nop && upd == SetKilled(i, true) && pc' == Kill(KlWake(i, pid))
    case KlWake(i, pid) =>
      && act == Nop && i < |s.procs| && pc' == Kill(KlUnlk(i, pid))
      && upd == (if s.procs[i].state == SLEEPING then SetState(i, RUNNABLE) else NoUpd)
    case KlUnlk(i, _) => act == Release(PLock(i)) && upd == SetIntr(true) && pc' == User
  }

  ghost predicate FaultStep(self: nat, q: FaultPc, act: Act, upd: Upd, pc': Pc) {
    match q
    case FlLock => act == Acquire(PLock(self)) && upd == NoUpd && pc' == Fault(FlSet)
    case FlSet => act == Nop && upd == SetKilled(self, true) && pc' == Fault(FlUnlk)
    case FlUnlk => act == Release(PLock(self)) && upd == NoUpd && pc' == Trap(KdLock)
  }

  /** `ticks - ticks0` in 32-bit arithmetic. */
  function Elapsed(s: State, t0: nat): nat { (Ticks32(s) - t0) % 0x1_0000_0000 }

  ghost predicate TicksStep(s: State, self: nat, q: TickPc, act: Act, upd: Upd, pc': Pc)
    requires self < |s.procs|
  {
    match q
    case TsLock(n) => act == Acquire(TicksLock) && upd == NoUpd && pc' == Ticks(TsRead(n))
    case TsRead(n) => act == Nop && upd == NoUpd && pc' == Ticks(TsLoop(n, Ticks32(s), s.now))
    case TsLoop(n, t0, start) =>
      && act == Nop && upd == NoUpd
      && pc' == Ticks(if Elapsed(s, t0) < n then TsKilled(n, t0, start, s.now, KdLock) else TsOk(n, start))
    case TsKilled(n, t0, start, seen, k) =>
      || (k.KdUnlk? && act == Release(PLock(self)) && upd == NoUpd
          && pc' == if k.killed then Ticks(TsFail) else Sleep(InTicks(n, t0, start, seen), SlLock))
      || (pc'.Ticks? && pc'.ts.TsKilled? && pc' == Ticks(TsKilled(n, t0, start, seen, pc'.ts.k))
          && KilledStep(s, self, k, act, upd, pc'.ts.k))
    case TsOk(_, _) => act == Release(TicksLock) && upd == SetIntr(true) && pc' == User
    case TsFail => act == Release(TicksLock) && upd == SetIntr(true) && pc' == User
  }

  /** `pid` is the pid of some process. */
  ghost predicate HasPid(procs: seq<Proc>, pid: int) {
    pid != 0 && exists j :: 0 <= j < |procs| && procs[j].pid == pid
  }

  /** A system call is entered, the killed check of usertrap, or an unexpected exception. */
  ghost predicate UserStep(s: State, act: Act, upd: Upd, pc': Pc) {
    && act == Nop && upd == NoUpd
    && (|| pc' == User || pc' == Trap(KdLock) || pc' == Fault(FlLock) || pc' == Wait(WtLock) || pc' == Fork(FkAt(0))
        || (pc'.ExitCheck? && !pc'.killed)
        || (pc'.Kill? && pc'.kl.KlAt? && pc'.kl.i == 0 && (pc'.kl.known <==> HasPid(s.procs, pc'.kl.pid)))
        || (pc'.Ticks? && pc'.ts.TsLock? && pc'.ts.n < 0x8000_0000))
  }

  ghost predicate TrapStep(s: State, self: nat, k: Killed, act: Act, upd: Upd, pc': Pc)
    requires self < |s.procs|
  {
    || (k.KdUnlk? && act == Release(PLock(self))
        && if k.killed then upd == NoUpd && pc' == ExitCheck(true, -1) else upd == SetIntr(true) && pc' == User)
    || (pc'.Trap? && KilledStep(s, self, k, act, upd, pc'.k))
  }

  ghost predicate BaseStep(s: State, c: nat, self: nat, pc: Pc, act: Act, upd: Upd, pc': Pc)
    requires c < |s.cpus|
  {
    if pc.Sched? then SchedStep(s, pc.q, act, upd, pc')
    else self < |s.procs| && match pc
      case User => UserStep(s, act, upd, pc')
      case Fault(q) => FaultStep(self, q, act, upd, pc')
      case Trap(k) => TrapStep(s, self, k, act, upd, pc')
      case ForkRet => act == Release(PLock(self)) && upd == SetIntr(true) && pc' == User
      case ExitCheck(_, st) => self != s.init && act == Nop && upd == NoUpd && pc' == Exit(ExLock, st)
      case Sched(_) => false
      case Sleep(w, q) => SleepStep(s, c, self, w, q, act, upd, pc')
      case Exit(q, st) => ExitStep(s, c, self, q, st, act, upd, pc')
      case Wait(q) => WaitStep(s, self, q, act, upd, pc')
      case Fork(q) => ForkStep(s, self, q, act, upd, pc')
      case Kill(q) => KillStep(s, q, act, upd, pc')
      case Ticks(q) => TicksStep(s, self, q, act, upd, pc')
  }

  /** kerneltrap for a timer interrupt: clockintr on CPU 0, then yield when a process was running. */
  ghost predicate IsrStep(s: State, c: nat, self: nat, base: Pc, isr: Isr, act: Act, upd: Upd, isr': Isr)
    requires c < |s.cpus|
  {
    match isr
    case Idle => false
    case ClkLock => act == Acquire(TicksLock) && upd == NoUpd && isr' == ClkInc
    case ClkInc => act == Nop && upd == Tick && isr' == ClkWake(WkAt(0))
    case ClkWake(w) =>
      || (w == WkAt(|s.procs|) && act == Nop && upd == NoUpd && isr' == ClkUnlk)
      || (isr'.ClkWake? && WakeStep(s, c, OnTicks, w, act, upd, isr'.w))
    case ClkUnlk => act == Release(TicksLock) && upd == NoUpd && isr' == Decide
    case Decide =>
      && act == Nop && upd == NoUpd
      && isr' == (if s.cpus[c].proc.Some? && s.cpus[c].proc.value < |s.procs| && s.procs[s.cpus[c].proc.value].state == RUNNING
                  then YLock else Ret(false))
    case YLock => act == Acquire(PLock(self)) && upd == NoUpd && isr' == YSet
    case YSet => act == Nop && upd == SetState(self, RUNNABLE) && isr' == YSwitch
    case YSwitch => act == Nop && isr' == YResume(s.cpus[c].intena) && upd == SwitchOut(self, Ctx(base, isr'))
    case YResume(b) => act == Nop && upd == SetIntena(b) && isr' == YUnlk
    case YUnlk => act == Release(PLock(self)) && upd == NoUpd && isr' == Ret(true)
    case Ret(_) => act == Nop && upd == SetIntr(true) && isr' == Idle
  }

  /** What CPU `c` may do next, and the context its code is in afterwards. */
  ghost predicate Next(s: State, c: nat, act: Act, upd: Upd, next: Ctx)
    requires c < |s.cpus|
  {
    var ctx, self := Active(s, c), Self(s, c);
    if ctx.isr != Idle then next.base == ctx.base && IsrStep(s, c, self, ctx.base, ctx.isr, act, upd, next.isr)
    else
      || (next.isr == Idle && BaseStep(s, c, self, ctx.base, act, upd, next.base))
      || Interrupt(s, c, act, upd, next)
  }

  ghost predicate Interrupt(s: State, c: nat, act: Act, upd: Upd, next: Ctx)
    requires c < |s.cpus|
  {
    && s.cpus[c].intr && act == Nop && upd == SetIntr(false)
    && next == Ctx(Active(s, c).base, if c == 0 then ClkLock else Decide)
  }

  // ----- the effect of a step -----

  function HeldAfter(held: map<Lock, nat>, c: nat, act: Act): map<Lock, nat> {
    match act
    case Nop => held
    case Acquire(l) => held[l := c]
    case Release(l) => held - {l}
  }

  /** push_off in acquire, pop_off in release. */
  function CpuAct(cpu: Cpu, act: Act): Cpu {
    match act
    case Nop => cpu
    case Acquire(_) => cpu.(noff := cpu.noff + 1, intena := if cpu.noff == 0 then cpu.intr else cpu.intena, intr := false)
    case Release(_) => cpu.(noff := if cpu.noff == 0 then 0 else cpu.noff - 1, intr := cpu.intr || (cpu.noff == 1 && cpu.intena))
  }

  function CpuUpd(cpu: Cpu, upd: Upd): Cpu {
    match upd
    case SetCpuProc(q) => cpu.(proc := q)
    case SetIntr(on) => cpu.(intr := on)
    case SetIntena(b) => cpu.(intena := b)
    case SwitchOut(i, _) => cpu.(ctx := Ctx(Sched(SchClear(i)), Idle))
    case _ => cpu
  }

  function ProcsAfter(procs: seq<Proc>, upd: Upd): seq<Proc> {
    match upd
    case SetState(i, st) => if i < |procs| then procs[i := procs[i].(state := st)] else procs
    case SetChan(i, ch) => if i < |procs| then procs[i := procs[i].(chan := ch)] else procs
    case SetKilled(i, k) => if i < |procs| then procs[i := procs[i].(killed := k)] else procs
    case SetXstate(i, x) => if i < |procs| then procs[i := procs[i].(xstate := x)] else procs
    case SetPid(i, pid) => if i < |procs| then procs[i := procs[i].(pid := pid)] else procs
    case SetParent(i, q) => if i < |procs| then procs[i := procs[i].(parent := q)] else procs
    case _ => procs
  }

  function CpuAfter(s: State, c: nat, act: Act, upd: Upd, next: Ctx): Cpu
    requires c < |s.cpus|
  {
    var cpu := if Self(s, c) < |s.threads| then s.cpus[c] else s.cpus[c].(ctx := next);
    CpuUpd(CpuAct(cpu, act), upd)
  }

  function ThreadsAfter(s: State, c: nat, upd: Upd, next: Ctx): seq<Ctx>
    requires c < |s.cpus|
  {
    var threads := if Self(s, c) < |s.threads| then s.threads[Self(s, c) := next] else s.threads;
    if upd.SetContext? && upd.i < |threads| then threads[upd.i := Ctx(ForkRet, Idle)] else threads
  }

  function ExitedAfter(s: State, upd: Upd): map<nat, int> {
    if upd.SetState? && upd.st == ZOMBIE && upd.i < |s.procs| then s.exited[s.procs[upd.i].pid := s.procs[upd.i].xstate]
    else s.exited
  }

  function MarkedAfter(s: State, upd: Upd): set<nat> {
    if upd.SetKilled? && upd.k && upd.i < |s.procs| then s.marked + {s.procs[upd.i].pid} else s.marked
  }

  function Apply(s: State, c: nat, act: Act, upd: Upd, next: Ctx): State
    requires c < |s.cpus|
  {
    s.(procs := ProcsAfter(s.procs, upd),
       threads := ThreadsAfter(s, c, upd, next),
       cpus := s.cpus[c := CpuAfter(s, c, act, upd, next)],
       held := HeldAfter(s.held, c, act),
       nextpid := if upd.BumpPid? then s.nextpid + 1 else s.nextpid,
       now := if upd.Tick? then s.now + 1 else s.now,
       exited := ExitedAfter(s, upd),
       marked := MarkedAfter(s, upd))
  }

  /** One step of CPU `c`: acquire waits until the lock is free. */
  ghost predicate StepBy(s: State, c: nat, act: Act, upd: Upd, next: Ctx, s': State) {
    && c < |s.cpus| && Next(s, c, act, upd, next)
    && (act.Acquire? ==> act.l !in s.held)
    && s' == Apply(s, c, act, upd, next)
  }

  ghost predicate Step(s: State, s': State) {
    exists c: nat, act: Act, upd: Upd, next: Ctx :: StepBy(s, c, act, upd, next, s')
  }

  /** After procinit and userinit: init is RUNNABLE at forkret, all other slots are UNUSED. */
  ghost predicate Init(s: State) {
    && |s.threads| == |s.procs| && s.init < |s.procs|
    && (forall i | 0 <= i < |s.procs| ::
          && s.threads[i] == Ctx(ForkRet, Idle)
          && s.procs[i] == Proc(if i == s.init then RUNNABLE else UNUSED, NoChan, false, 0, if i == s.init then 1 else 0, None))
    && (forall c | 0 <= c < |s.cpus| ::
          s.cpus[c].ctx == Ctx(Sched(SchTop), Idle) && s.cpus[c].proc == None && s.cpus[c].noff == 0)
    && s.held == map[] && s.nextpid == 2 && s.exited == map[] && s.marked == {}
  }

  /** A finite run: consecutive states are related by a step of some CPU. */
  ghost predicate Run(states: seq<State>) {
    && |states| > 0 && Init(states[0])
    && forall i | 0 < i < |states| :: Step(states[i - 1], states[i])
  }

  ghost predicate Reachable(s: State) {
    exists states: seq<State> :: Run(states) && states[|states| - 1] == s
  }
}
