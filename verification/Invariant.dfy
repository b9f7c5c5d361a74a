/** The invariant of the process protocol, one predicate for each concern. */
module Invariant {
  import opened ProcTypes
  import opened Machine
  import opened Locks

  // ----- locks and CPUs -----

  /** A lock is recorded as held by a CPU exactly when the code that CPU executes holds it. */
  ghost predicate LocksOk(s: State) {
    && (forall l | l in s.held :: s.held[l] < |s.cpus|)
    && forall c: nat, l | c < |s.cpus| :: (l in s.held && s.held[l] == c) <==> l in Held(Active(s, c), Self(s, c))
  }

  /** noff counts the held locks, and interrupts are off while it is positive. */
  ghost predicate NoffOk(s: State) {
    forall c: nat | c < |s.cpus| ::
      && s.cpus[c].noff == |Held(Active(s, c), Self(s, c))|
      && (s.cpus[c].noff > 0 ==> !s.cpus[c].intr)
  }

  // ----- where processes run -----

  /** The slot that a CPU has made RUNNING and not yet got back from. */
  function Place(pc: Pc): Option<nat> {
    if pc.Sched? && (pc.q.SchCpu? || pc.q.SchGo? || pc.q.SchIn?) then Some(pc.q.i) else None
  }

  /** c->proc at each point of the scheduler. */
  function ProcAt(pc: Pc): Option<nat> {
    if pc.Sched? && (pc.q.SchGo? || pc.q.SchIn? || pc.q.SchClear?) then Some(pc.q.i) else None
  }

  ghost predicate Placed(s: State, t: nat) {
    exists c: nat :: c < |s.cpus| && Place(s.cpus[c].ctx.base) == Some(t)
  }

  /** The state of a process while a CPU executes its thread at `ctx`. */
  function OnState(ctx: Ctx): ProcState {
    if ctx.isr == YSwitch then RUNNABLE
    else if ctx.isr != Idle then RUNNING
    else if ctx.base.Sleep? && ctx.base.sl.SlSwitch? then SLEEPING
    else if ctx.base.Exit? && (ctx.base.ex.ExUnlk? || ctx.base.ex.ExSwitch?) then ZOMBIE
    else RUNNING
  }

  predicate LockFree(pc: Pc, self: nat) {
    HeldPc(pc, self) == {}
  }

  /** A thread that swtch may resume: fresh from fork, in yield, or in sleep. */
  predicate Resumable(ctx: Ctx, self: nat) {
    || (ctx.isr.YResume? && LockFree(ctx.base, self))
    || (ctx.isr.Idle? && (ctx.base.ForkRet? || (ctx.base.Sleep? && ctx.base.sl.SlResume?)))
  }

  /** The part of a timer interrupt that only runs on top of a process. */
  predicate Yielding(isr: Isr) {
    isr.YLock? || isr.YSet? || isr.YSwitch? || isr.YResume? || isr.YUnlk?
  }

  predicate Dead(ctx: Ctx) {
    ctx.isr.Idle? && ctx.base.Exit? && ctx.base.ex.ExDead?
  }

  /** A thread that no CPU executes, by the state of its process. */
  predicate OffOk(ctx: Ctx, st: ProcState, self: nat) {
    match st
    case RUNNABLE => Resumable(ctx, self)
    case SLEEPING => ctx.isr.Idle? && ctx.base.Sleep? && ctx.base.sl.SlResume?
    case ZOMBIE => Dead(ctx)
    case RUNNING => false
    case _ => Dead(ctx) || ctx == Ctx(ForkRet, Idle)
  }

  ghost predicate CpuOk(s: State, c: nat)
    requires c < |s.cpus| && |s.threads| == |s.procs|
  {
    var ctx := s.cpus[c].ctx;
    && ctx.base.Sched?
    && (ctx.isr != Idle ==> LockFree(ctx.base, |s.threads|) && !Yielding(ctx.isr))
    && s.cpus[c].proc == ProcAt(ctx.base)
    && (Place(ctx.base).Some? ==> Place(ctx.base).value < |s.threads|)
    && (ctx.base.q.SchCpu? || ctx.base.q.SchGo? ==>
          s.procs[ctx.base.q.i].state == RUNNING && Resumable(s.threads[ctx.base.q.i], ctx.base.q.i))
    && (ctx.base.q.SchIn? ==>
          s.procs[ctx.base.q.i].state == OnState(s.threads[ctx.base.q.i]) && !Dead(s.threads[ctx.base.q.i]))
  }

  ghost predicate ThreadOk(s: State, t: nat)
    requires t < |s.threads| == |s.procs|
  {
    && !s.threads[t].base.Sched?
    && (s.threads[t].isr != Idle ==> LockFree(s.threads[t].base, t))
    && (!Placed(s, t) ==> OffOk(s.threads[t], s.procs[t].state, t))
  }

  ghost predicate PlaceOk(s: State) {
    && |s.threads| == |s.procs| && s.init < |s.procs|
    && (forall c: nat | c < |s.cpus| :: CpuOk(s, c))
    && (forall t: nat | t < |s.threads| :: ThreadOk(s, t))
    && (forall c: nat, d: nat | c < |s.cpus| && d < |s.cpus| && Place(s.cpus[c].ctx.base).Some?
          && Place(s.cpus[c].ctx.base) == Place(s.cpus[d].ctx.base) :: c == d)
  }

  // ----- slots that fork is filling -----

  /** The UNUSED slot that allocproc holds the lock of. */
  function EarlySlot(pc: Pc): Option<nat> {
    if pc.Fork? && (pc.fk.FkPidLock? || pc.fk.FkPidRead? || pc.fk.FkPidBump? || pc.fk.FkPidUnlk? || pc.fk.FkSetPid? || pc.fk.FkUsed?)
    then Some(pc.fk.i) else None
  }

  /** The slot is ready to run: its context is set up and it will not be undone. */
  predicate Ready(q: ForkPc) {
    q.FkUnlk? || q.FkWait? || q.FkParent? || q.FkWaitUnlk? || q.FkRelock? || q.FkRun?
  }

  /** The USED slot that fork has reserved. */
  function Slot(pc: Pc): Option<nat> {
    if pc.Fork? && (Ready(pc.fk) || pc.fk.FkMem? || pc.fk.FkMemUnlk? || pc.fk.FkContext? || pc.fk.FkCopy? || pc.fk.FkCopyUnlk? || pc.fk.FkUndo?)
    then Some(pc.fk.i) else None
  }

  ghost predicate SlotOk(s: State, t: nat)
    requires t < |s.threads| == |s.procs|
  {
    var pc := s.threads[t].base;
    && (EarlySlot(pc).Some? ==> EarlySlot(pc).value < |s.procs| && s.procs[EarlySlot(pc).value].state == UNUSED)
    && (Slot(pc).Some? ==> Slot(pc).value < |s.procs| && s.procs[Slot(pc).value].state == USED)
    && (Slot(pc).Some? && (Ready(pc.fk) || pc.fk.FkCopy? || pc.fk.FkCopyUnlk?) ==> s.threads[pc.fk.i] == Ctx(ForkRet, Idle))
    && (pc.Wait? && pc.wt.WtFree? ==> pc.wt.j < |s.procs| && s.procs[pc.wt.j].state == ZOMBIE)
  }

  ghost predicate SlotsOk(s: State)
    requires |s.threads| == |s.procs|
  {
    && (forall t: nat | t < |s.threads| :: SlotOk(s, t))
    && (forall t: nat, u: nat | t < |s.threads| && u < |s.threads| && Slot(s.threads[t].base).Some?
          && Slot(s.threads[t].base) == Slot(s.threads[u].base) :: t == u)
  }

  ghost predicate CoreOk(s: State) {
    LocksOk(s) && NoffOk(s) && PlaceOk(s) && SlotsOk(s)
  }

  // ----- pids -----

  /** A pid that allocpid has given out and that is not yet in a slot. */
  function PidAt(pc: Pc): Option<nat> {
    if pc.Fork? && pc.fk.FkPidUnlk? then Some(pc.fk.pid)
    else if pc.Fork? && pc.fk.FkSetPid? then Some(pc.fk.pid)
    else None
  }

  ghost predicate PidOk(s: State, t: nat)
    requires t < |s.threads|
  {
    var pc := s.threads[t].base;
    && (pc.Fork? && pc.fk.FkPidBump? ==> pc.fk.pid == s.nextpid)
    && (PidAt(pc).Some? ==> 0 < PidAt(pc).value < s.nextpid && forall j | 0 <= j < |s.procs| :: s.procs[j].pid != PidAt(pc).value)
  }

  ghost predicate PidsOk(s: State) {
    && 0 < s.nextpid
    && (forall i | 0 <= i < |s.procs| :: s.procs[i].pid < s.nextpid)
    && (forall i, j | 0 <= i < |s.procs| && 0 <= j < |s.procs| && s.procs[i].pid != 0 && s.procs[i].pid == s.procs[j].pid :: i == j)
    && (forall t: nat | t < |s.threads| :: PidOk(s, t))
    && (forall t: nat, u: nat | t < |s.threads| && u < |s.threads| && PidAt(s.threads[t].base).Some?
          && PidAt(s.threads[t].base) == PidAt(s.threads[u].base) :: t == u)
  }

  // ----- the process tree -----

  predicate Alive(st: ProcState) {
    st == SLEEPING || st == RUNNABLE || st == RUNNING
  }

  /** A parent is alive and older; every process but init that is alive or a zombie has one. */
  ghost predicate LinkOk(s: State, i: nat)
    requires i < |s.procs|
  {
    var p := s.procs[i];
    && (p.parent.Some? ==>
          && p.parent.value < |s.procs| && Alive(s.procs[p.parent.value].state)
          && (p.pid != 0 ==> s.procs[p.parent.value].pid < p.pid))
    && (i != s.init && (Alive(p.state) || (p.state == ZOMBIE && p.pid != 0)) ==> p.parent.Some?)
    && (Alive(p.state) ==> p.pid != 0)
    && (p.state == UNUSED ==> p.parent == None)
  }

  ghost predicate InitOk(s: State) {
    && s.init < |s.procs| && Alive(s.procs[s.init].state) && s.procs[s.init].pid == 1 && s.procs[s.init].parent == None
  }

  /** No slot below `n` has parent `t`. */
  ghost predicate NoKids(s: State, t: nat, n: nat) {
    forall i: nat | i < n && i < |s.procs| :: s.procs[i].parent != Some(t)
  }

  /** How far exit has got in giving its children away. */
  function KidsBound(q: ExitPc, n: nat): nat {
    match q
    case ExLock => 0
    case ExScan(j) => j
    case ExInit(j, _) => j + 1
    case _ => n
  }

  /** freeproc has cleared the pid, and the parent, of the slot. */
  predicate PidCleared(f: Free) { f.FrParent? || ParentCleared(f) }
  predicate ParentCleared(f: Free) { f.FrChan? || f.FrKilled? || f.FrXstate? || f.FrState? }

  /** fork of thread `t` has a pid for the slot and has linked it to its parent, or not. */
  ghost predicate ForkLink(s: State, t: nat, q: ForkPc)
    requires t < |s.procs|
  {
    && (q.FkPidBump? || q.FkPidUnlk? || q.FkSetPid? ==> s.procs[t].pid < q.pid)
    && (q.FkUsed? && q.i < |s.procs| ==> s.procs[t].pid < s.procs[q.i].pid)
    && (Slot(Fork(q)).Some? && q.i < |s.procs| ==>
          if q.FkWaitUnlk? || q.FkRelock? || q.FkRun? then s.procs[q.i].parent == Some(t) && s.procs[q.i].pid != 0
          else s.procs[q.i].parent == None && (!q.FkUndo? ==> s.procs[t].pid < s.procs[q.i].pid))
    && (Ready(q) && q.i < |s.procs| ==> s.procs[q.i].pid == q.pid)
  }

  ghost predicate TreeThread(s: State, t: nat)
    requires t < |s.threads| == |s.procs|
  {
    var pc := s.threads[t].base;
    && (pc.Fork? ==> ForkLink(s, t, pc.fk))
    && (pc.Wait? && pc.wt.WtFree? && pc.wt.j < |s.procs| ==>
          && (PidCleared(pc.wt.f) ==> s.procs[pc.wt.j].pid == 0)
          && (if ParentCleared(pc.wt.f) then s.procs[pc.wt.j].parent == None else s.procs[pc.wt.j].parent == Some(t)))
    && (pc.Wait? && (pc.wt.WtTest? || pc.wt.WtSkip? || pc.wt.WtBadChild?) ==> pc.wt.j < |s.procs| && s.procs[pc.wt.j].parent == Some(t))
    && (pc.Exit? ==> t != s.init && NoKids(s, t, KidsBound(pc.ex, |s.procs|)))
  }

  /** wait is freeing the zombie in slot `i` and has cleared its pid. */
  ghost predicate Reaped(s: State, i: nat) {
    exists t: nat :: t < |s.threads| && Reaps(s.threads[t].base, i)
  }

  predicate Reaps(pc: Pc, i: nat) {
    pc.Wait? && pc.wt.WtFree? && pc.wt.j == i && PidCleared(pc.wt.f)
  }

  ghost predicate ZombieOk(s: State, i: nat)
    requires i < |s.procs|
  {
    s.procs[i].state == ZOMBIE && s.procs[i].pid == 0 ==> Reaped(s, i)
  }

  ghost predicate ZombiesOk(s: State) {
    forall i: nat | i < |s.procs| :: ZombieOk(s, i)
  }

  ghost predicate TreeOk(s: State)
    requires |s.threads| == |s.procs|
  {
    && InitOk(s)
    && (forall i: nat | i < |s.procs| :: LinkOk(s, i))
    && (forall t: nat | t < |s.threads| :: TreeThread(s, t))
  }

  // ----- sleeping -----

  /** The thread has released the lock it gave to sleep and has not been woken since. */
  ghost predicate Asleep(s: State, t: nat)
    requires t < |s.threads| == |s.procs|
  {
    var pc := s.threads[t].base;
    pc.Sleep? && (pc.sl.SlChan? || pc.sl.SlState? || pc.sl.SlSwitch? || (pc.sl.SlResume? && s.procs[t].state == SLEEPING))
  }

  /** A wakeup loop that has yet to look at slot `t`. */
  predicate Pending(w: Wake, t: nat) {
    w.k < t || (w.k == t && !w.WkNext?)
  }

  /** A thread that sleeps is recorded on the channel of its caller. */
  ghost predicate ChanThread(s: State, t: nat)
    requires t < |s.threads| == |s.procs|
  {
    var pc := s.threads[t].base;
    Asleep(s, t) && !pc.sl.SlChan? ==> s.procs[t].chan == ChanOf(pc.why, t)
  }

  ghost predicate ChansOk(s: State)
    requires |s.threads| == |s.procs|
  {
    forall t: nat | t < |s.threads| :: ChanThread(s, t)
  }

  // ----- wait -----

  ghost predicate IsZombieKid(s: State, t: nat, i: nat)
    requires i < |s.procs|
  {
    s.procs[i].parent == Some(t) && s.procs[i].state == ZOMBIE
  }

  /** No slot below `n` is a zombie child of `t`. */
  ghost predicate NoZombie(s: State, t: nat, n: nat) {
    forall i: nat | i < n && i < |s.procs| :: !IsZombieKid(s, t, i)
  }

  /** How far the scan of wait has got, while wait_lock is held. */
  function ScanBound(pc: Pc, n: nat): nat {
    if pc.Wait? then
      match pc.wt
      case WtAt(j, _) => j
      case WtTest(j) => j
      case WtSkip(j) => j + 1
      case WtKilled(_) => n
      case _ => 0
    else if pc.Sleep? && pc.why.InWait? && (pc.sl.SlLock? || pc.sl.SlUnlk?) then n
    else 0
  }

  /** wait has seen no zombie among the slots it scanned, and no child at all unless it noted one. */
  ghost predicate WaitThread(s: State, t: nat)
    requires t < |s.threads| == |s.procs|
  {
    var pc := s.threads[t].base;
    && NoZombie(s, t, ScanBound(pc, |s.procs|))
    && (pc.Wait? && pc.wt.WtAt? && !pc.wt.kids ==> NoKids(s, t, pc.wt.j))
    && (pc == Wait(WtFail(NoChildren)) ==> NoKids(s, t, |s.procs|))
    && (pc.Wait? && pc.wt.WtSkip? && pc.wt.j < |s.procs| ==> s.procs[pc.wt.j].state != ZOMBIE)
  }

  ghost predicate WaitsOk(s: State)
    requires |s.threads| == |s.procs|
  {
    forall t: nat | t < |s.threads| :: WaitThread(s, t)
  }

  ghost predicate AsleepInWait(s: State, t: nat)
    requires t < |s.threads| == |s.procs|
  {
    Asleep(s, t) && s.threads[t].base.why.InWait?
  }

  /** The thread gives children to init and has yet to wake init for the last of them. */
  ghost predicate WakesInit(s: State, e: nat)
    requires e < |s.threads|
  {
    var pc := s.threads[e].base;
    pc.Exit? && pc.ex.ExInit? && Pending(pc.ex.w, s.init)
  }

  /** exit has looked at slot `t` in wakeup(p->parent) and still holds wait_lock. */
  predicate Passed(pc: Pc, t: nat) {
    pc.Exit? && ((pc.ex.ExParent? && !Pending(pc.ex.w, t)) || pc.ex.ExSelf? || pc.ex.ExStatus? || pc.ex.ExZombie?)
  }

  /** A zombie child of a sleeping parent: only while exit is about to wake init. */
  ghost predicate NotMissed(s: State, t: nat, i: nat)
    requires t < |s.threads| == |s.procs| && i < |s.procs|
  {
    AsleepInWait(s, t) && IsZombieKid(s, t, i) ==> t == s.init && exists e: nat :: e < |s.threads| && WakesInit(s, e)
  }

  ghost predicate ParentAwake(s: State, e: nat)
    requires e < |s.threads| == |s.procs|
  {
    var pc, q := s.threads[e].base, s.procs[e].parent;
    && (pc.Exit? && pc.ex.ExParent? ==> pc.ex.q == q)
    && (q.Some? && q.value < |s.threads| && Passed(pc, q.value) ==> !AsleepInWait(s, q.value))
  }

  ghost predicate WakesOk(s: State)
    requires |s.threads| == |s.procs|
  {
    && (forall t: nat, i: nat | t < |s.threads| && i < |s.procs| :: NotMissed(s, t, i))
    && (forall e: nat | e < |s.threads| :: ParentAwake(s, e))
  }

  // ----- ticks -----

  /** `ticks - ticks0 < n` for the tick count `seen`. */
  predicate NotDue(seen: nat, t0: nat, n: nat) {
    (seen % 0x1_0000_0000 - t0) % 0x1_0000_0000 < n
  }

  /** sys_sleep at each point: what it has read, and what has passed. */
  ghost predicate TickThread(s: State, t: nat)
    requires t < |s.threads|
  {
    TickPoint(s.now, s.threads[t].base)
  }

  ghost predicate TickPoint(now: nat, pc: Pc) {
    && (pc.Ticks? && (pc.ts.TsLoop? || pc.ts.TsKilled?) ==> pc.ts.start <= now && pc.ts.t0 == pc.ts.start % 0x1_0000_0000)
    && (pc.Ticks? && pc.ts.TsKilled? ==> pc.ts.seen == now && NotDue(pc.ts.seen, pc.ts.t0, pc.ts.n))
    && (pc.Ticks? && pc.ts.TsOk? ==> pc.ts.start + pc.ts.n <= now)
    && (pc.Sleep? && pc.why.InTicks? ==>
          pc.why.start <= now && pc.why.t0 == pc.why.start % 0x1_0000_0000 && NotDue(pc.why.seen, pc.why.t0, pc.why.n))
    && (pc.Sleep? && pc.why.InTicks? && (pc.sl.SlLock? || pc.sl.SlUnlk?) ==> pc.why.seen == now)
  }

  /** Some CPU is in clockintr and has yet to look at slot `t`. */
  ghost predicate ClockWakes(s: State, t: nat) {
    exists d: nat :: d < |s.cpus| && Active(s, d).isr.ClkWake? && Pending(Active(s, d).isr.w, t)
  }

  ghost predicate NoMissedTick(s: State, t: nat)
    requires t < |s.threads| == |s.procs|
  {
    Asleep(s, t) && s.threads[t].base.why.InTicks? ==> s.threads[t].base.why.seen == s.now || ClockWakes(s, t)
  }

  ghost predicate TicksOk(s: State)
    requires |s.threads| == |s.procs|
  {
    forall t: nat | t < |s.threads| :: TickThread(s, t) && NoMissedTick(s, t)
  }

  ghost predicate Inv(s: State) {
    CoreOk(s) && PidsOk(s) && TreeOk(s) && ZombiesOk(s) && ChansOk(s) && WaitsOk(s) && WakesOk(s) && TicksOk(s)
  }
}
