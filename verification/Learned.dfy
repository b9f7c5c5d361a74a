/** What code learns of a slot under its p->lock stays true until it releases the lock. */
module Learned {
  import opened ProcTypes
  import opened Machine
  import opened Locks
  import opened Invariant
  import opened CoreSteps
  import opened PlaceSteps
  import opened SlotSteps
  import opened Effects
  import opened TickSteps

  predicate SlotIs(procs: seq<Proc>, i: nat, st: ProcState) {
    i < |procs| ==> procs[i].state == st
  }

  predicate SlotIsNot(procs: seq<Proc>, i: nat, st: ProcState) {
    i < |procs| ==> procs[i].state != st
  }

  predicate PidIs(procs: seq<Proc>, i: nat, pid: int) {
    i < |procs| ==> procs[i].pid == pid
  }

  /** wakeup(ch) leaves a slot that it has tested awake, or asleep on another channel. */
  predicate WokeAt(procs: seq<Proc>, ch: Chan, w: Wake) {
    w.WkNext? && w.k < |procs| ==> !(procs[w.k].state == SLEEPING && procs[w.k].chan == ch)
  }

  /** freeproc has cleared the fields before this point. */
  predicate FreeLearned(procs: seq<Proc>, i: nat, f: Free) {
    i < |procs| ==>
      && (PidCleared(f) ==> procs[i].pid == 0)
      && (f.FrKilled? || f.FrXstate? || f.FrState? ==> procs[i].chan == NoChan)
      && (f.FrXstate? || f.FrState? ==> !procs[i].killed)
      && (f.FrState? ==> procs[i].xstate == 0)
  }

  predicate ForkLearned(procs: seq<Proc>, q: ForkPc) {
    && (q.FkUndo? ==> FreeLearned(procs, q.i, q.f))
    && (q.FkSkip? ==> SlotIsNot(procs, q.i, UNUSED))
    && (q.FkUnlk2? ==> SlotIs(procs, q.i, RUNNABLE) && PidIs(procs, q.i, q.pid))
  }

  predicate KillLearned(procs: seq<Proc>, q: KillPc) {
    && (q.KlSkip? && q.i < |procs| ==> procs[q.i].pid != q.pid)
    && (q.KlSet? || q.KlWake? || q.KlUnlk? ==> PidIs(procs, q.i, q.pid))
    && ((q.KlWake? || q.KlUnlk?) && q.i < |procs| ==> procs[q.i].killed)
    && (q.KlUnlk? ==> SlotIsNot(procs, q.i, SLEEPING))
  }

  predicate ExitLearned(procs: seq<Proc>, init: nat, q: ExitPc, st: int, self: nat) {
    && (q.ExInit? ==> WokeAt(procs, OnProc(init), q.w))
    && (q.ExParent? && q.q.Some? ==> WokeAt(procs, OnProc(q.q.value), q.w))
    && ((q.ExZombie? || q.ExUnlk? || q.ExSwitch?) && self < |procs| ==> procs[self].xstate == st)
    && (q.ExUnlk? || q.ExSwitch? ==> SlotIs(procs, self, ZOMBIE))
  }

  predicate WaitLearned(procs: seq<Proc>, q: WaitPc) {
    && (q.WtFree? ==> FreeLearned(procs, q.j, q.f))
    && (q.WtBadChild? ==> SlotIs(procs, q.j, ZOMBIE))
    && (q.WtFree? && (q.f.FrKmem? || q.f.FrKmemUnlk? || q.f.FrPid?) ==> PidIs(procs, q.j, q.got.pid))
    && (q.WtFree? && !q.f.FrState? && q.j < |procs| ==> procs[q.j].xstate == q.got.xstate)
    && (q.WtUnlkChild? ==> SlotIs(procs, q.j, UNUSED))
  }

  predicate KilledLearned(procs: seq<Proc>, k: Killed, self: nat) {
    k.KdUnlk? && self < |procs| ==> procs[self].killed == k.killed
  }

  /** What the code at `pc` has learned of the slot whose lock it holds. */
  predicate BaseLearned(procs: seq<Proc>, init: nat, pc: Pc, self: nat) {
    match pc
    case Trap(k) => KilledLearned(procs, k, self)
    case Fault(q) => q.FlUnlk? && self < |procs| ==> procs[self].killed
    case Sched(q) => q.SchSkip? ==> SlotIsNot(procs, q.i, RUNNABLE)
    case Exit(q, st) => ExitLearned(procs, init, q, st, self)
    case Wait(q) => WaitLearned(procs, q) && (q.WtKilled? ==> KilledLearned(procs, q.k, self))
    case Fork(q) => ForkLearned(procs, q)
    case Kill(q) => KillLearned(procs, q)
    case Ticks(q) => q.TsKilled? ==> KilledLearned(procs, q.k, self)
    case _ => true
  }

  predicate CtxLearned(procs: seq<Proc>, init: nat, ctx: Ctx, self: nat) {
    if ctx.isr == Idle then BaseLearned(procs, init, ctx.base, self)
    else ctx.isr.ClkWake? ==> WokeAt(procs, OnTicks, ctx.isr.w)
  }

  ghost predicate LearnedOk(s: State) {
    forall c: nat | c < |s.cpus| :: CtxLearned(s.procs, s.init, Active(s, c), Self(s, c))
  }

  // ----- other CPUs -----

  /** The fields of a slot that p->lock protects. */
  predicate SameSlot(p: Proc, p': Proc) {
    p'.state == p.state && p'.chan == p.chan && p'.killed == p.killed && p'.xstate == p.xstate && p'.pid == p.pid
  }

  /** Only the holder of p->lock changes them. */
  lemma SlotLocked(s: State, ctx: Ctx, self: nat, upd: Upd, i: nat)
    requires Grant(s, ctx, self, upd) && i < |s.procs| && PLock(i) !in Held(ctx, self)
    ensures SameSlot(s.procs[i], ProcsAfter(s.procs, upd)[i])
  {
  }

  lemma LearnedKept(procs: seq<Proc>, procs': seq<Proc>, init: nat, ctx: Ctx, self: nat)
    requires CtxLearned(procs, init, ctx, self) && |procs'| == |procs|
    requires forall i: nat | i < |procs| && PLock(i) in Held(ctx, self) :: SameSlot(procs[i], procs'[i])
    ensures CtxLearned(procs', init, ctx, self)
  {
  }

  lemma LearnedOther(s: State, c: nat, act: Act, upd: Upd, next: Ctx, s': State, d: nat)
    requires StepBy(s, c, act, upd, next, s') && CoreOk(s) && d < |s.cpus| && d != c
    requires CtxLearned(s.procs, s.init, Active(s, d), Self(s, d))
    ensures d < |s'.cpus| && CtxLearned(s'.procs, s'.init, Active(s', d), Self(s', d))
  {
    hide StepBy;
    hide Held;
    hide CtxLearned;
    hide Grant;
    hide SameSlot;
    CoreParts(s);
    hide CoreOk;
    hide LocksOk;
    Sizes(s, c, act, upd, next, s');
    Linked(s, c, act, upd, next, s');
    OthersKeep(s, c, act, upd, next, s', d);
    var ctx, self := Active(s, d), Self(s, d);
    forall i: nat | i < |s.procs| && PLock(i) in Held(ctx, self) ensures SameSlot(s.procs[i], s'.procs[i]) {
      if PLock(i) in Held(Active(s, c), Self(s, c)) {
        Exclusive(s, c, d, PLock(i));
      }
      SlotLocked(s, Active(s, c), Self(s, c), upd, i);
    }
    LearnedKept(s.procs, s'.procs, s.init, ctx, self);
  }

  // ----- the CPU that takes the step -----

  lemma WakeLearns(s: State, c: nat, ch: Chan, w: Wake, act: Act, upd: Upd, w': Wake)
    requires c < |s.cpus| && WakeStep(s, c, ch, w, act, upd, w')
    ensures WokeAt(ProcsAfter(s.procs, upd), ch, w')
  {
  }

  lemma ExitLearns(s: State, c: nat, self: nat, q: ExitPc, st: int, act: Act, upd: Upd, pc': Pc)
    requires c < |s.cpus| && self < |s.procs| && ExitStep(s, c, self, q, st, act, upd, pc') && ExitLearned(s.procs, s.init, q, st, self)
    ensures BaseLearned(ProcsAfter(s.procs, upd), s.init, pc', self)
  {
    hide WakeStep;
    hide WokeAt;
    if q.ExInit? && pc'.ex.ExInit? {
      WakeLearns(s, c, OnProc(s.init), q.w, act, upd, pc'.ex.w);
    } else if q.ExParent? && pc'.ex.ExParent? && q.q.Some? {
      WakeLearns(s, c, OnProc(q.q.value), q.w, act, upd, pc'.ex.w);
    }
    NotWoken(ProcsAfter(s.procs, upd));
  }

  /** A loop of wakeup that is about to start has tested nothing. */
  lemma NotWoken(procs: seq<Proc>)
    ensures forall ch, k :: WokeAt(procs, ch, WkAt(k))
  {
  }

  lemma WaitLearns(s: State, self: nat, q: WaitPc, act: Act, upd: Upd, pc': Pc)
    requires self < |s.procs| && WaitStep(s, self, q, act, upd, pc')
    requires WaitLearned(s.procs, q) && (q.WtKilled? ==> KilledLearned(s.procs, q.k, self))
    ensures BaseLearned(ProcsAfter(s.procs, upd), s.init, pc', self)
  {
  }

  lemma FreeLearns(procs: seq<Proc>, i: nat, f: Free, act: Act, upd: Upd, f': Free)
    requires FreeStep(i, f, act, upd, f') && FreeLearned(procs, i, f)
    ensures FreeLearned(ProcsAfter(procs, upd), i, f')
    ensures !upd.SetState? && (upd.SetXstate? ==> f.FrXstate?) && (upd.SetPid? ==> f.FrPid?)
  {
  }

  lemma ForkLearns(s: State, self: nat, q: ForkPc, act: Act, upd: Upd, pc': Pc)
    requires ForkStep(s, self, q, act, upd, pc') && ForkLearned(s.procs, q)
    requires Ready(q) && q.i < |s.procs| ==> s.procs[q.i].pid == q.pid
    ensures BaseLearned(ProcsAfter(s.procs, upd), s.init, pc', self)
  {
    hide FreeStep;
    hide FreeLearned;
    if q.FkUndo? && pc'.Fork? && pc'.fk.FkUndo? {
      FreeLearns(s.procs, q.i, q.f, act, upd, pc'.fk.f);
    }
    FreeStarts(ProcsAfter(s.procs, upd));
  }

  lemma FreeStarts(procs: seq<Proc>)
    ensures forall i :: FreeLearned(procs, i, FrKmem)
  {
  }

  lemma KillLearns(s: State, self: nat, q: KillPc, act: Act, upd: Upd, pc': Pc)
    requires KillStep(s, q, act, upd, pc') && KillLearned(s.procs, q)
    ensures BaseLearned(ProcsAfter(s.procs, upd), s.init, pc', self)
  {
  }

  lemma TicksLearns(s: State, self: nat, q: TickPc, act: Act, upd: Upd, pc': Pc)
    requires self < |s.procs| && TicksStep(s, self, q, act, upd, pc') && (q.TsKilled? ==> KilledLearned(s.procs, q.k, self))
    ensures BaseLearned(ProcsAfter(s.procs, upd), s.init, pc', self)
  {
    hide Elapsed;
  }

  lemma OtherLearns(s: State, c: nat, self: nat, pc: Pc, act: Act, upd: Upd, pc': Pc)
    requires c < |s.cpus| && BaseStep(s, c, self, pc, act, upd, pc') && BaseLearned(s.procs, s.init, pc, self)
    requires !pc.Exit? && !pc.Wait? && !pc.Fork? && !pc.Kill? && !pc.Ticks?
    ensures BaseLearned(ProcsAfter(s.procs, upd), s.init, pc', self)
  {
  }

  lemma BaseLearns(s: State, c: nat, self: nat, pc: Pc, act: Act, upd: Upd, pc': Pc)
    requires c < |s.cpus| && BaseStep(s, c, self, pc, act, upd, pc') && BaseLearned(s.procs, s.init, pc, self)
    requires pc.Fork? && Ready(pc.fk) && pc.fk.i < |s.procs| ==> s.procs[pc.fk.i].pid == pc.fk.pid
    ensures BaseLearned(ProcsAfter(s.procs, upd), s.init, pc', self)
  {
    hide ExitStep;
    hide WaitStep;
    hide ForkStep;
    hide KillStep;
    hide TicksStep;
    hide ExitLearned;
    hide WaitLearned;
    hide ForkLearned;
    hide KillLearned;
    hide KilledLearned;
    match pc
    case Exit(q, st) => ExitLearns(s, c, self, q, st, act, upd, pc');
    case Wait(q) => WaitLearns(s, self, q, act, upd, pc');
    case Fork(q) => ForkLearns(s, self, q, act, upd, pc');
    case Kill(q) => KillLearns(s, self, q, act, upd, pc');
    case Ticks(q) => TicksLearns(s, self, q, act, upd, pc');
    case _ => OtherLearns(s, c, self, pc, act, upd, pc');
  }

  /** Code that holds no lock, and code that swtch resumes, relies on nothing of the kind. */
  lemma NothingLearned(procs: seq<Proc>, init: nat, ctx: Ctx, self: nat)
    requires (ctx.isr == Idle && LockFree(ctx.base, self)) || Resumable(ctx, self) || (ctx.base.Sched? && ctx.isr == Idle && ctx.base.q.SchClear?)
    ensures CtxLearned(procs, init, ctx, self)
  {
  }

  /** The context a CPU goes to, wherever its own step leads. */
  lemma NextLearned(s: State, c: nat, act: Act, upd: Upd, next: Ctx)
    requires c < |s.cpus| && CoreOk(s) && TreeOk(s) && Next(s, c, act, upd, next)
    requires CtxLearned(s.procs, s.init, Active(s, c), Self(s, c))
    ensures CtxLearned(ProcsAfter(s.procs, upd), s.init, next, Self(s, c))
  {
    hide BaseStep;
    hide BaseLearned;
    hide LocksOk;
    hide NoffOk;
    hide LinkOk;
    hide WokeAt;
    var ctx, self := Active(s, c), Self(s, c);
    CpuCode(s, c);
    if ctx.isr != Idle {
      if next.isr == Idle {
        NothingLearned(ProcsAfter(s.procs, upd), s.init, next, self);
      } else if next.isr.ClkWake? {
        ClkLearns(s, c, self, ctx.base, ctx.isr, act, upd, next.isr);
      }
    } else if next.isr == Idle && BaseStep(s, c, self, ctx.base, act, upd, next.base) {
      BaseLearns(s, c, self, ctx.base, act, upd, next.base);
    }
  }

  lemma ClkLearns(s: State, c: nat, self: nat, base: Pc, isr: Isr, act: Act, upd: Upd, isr': Isr)
    requires c < |s.cpus| && IsrStep(s, c, self, base, isr, act, upd, isr') && isr'.ClkWake?
    ensures WokeAt(ProcsAfter(s.procs, upd), OnTicks, isr'.w)
  {
    hide WakeStep;
    if isr.ClkWake? {
      WakeLearns(s, c, OnTicks, isr.w, act, upd, isr'.w);
    }
  }

  lemma CpuCode(s: State, c: nat)
    requires c < |s.cpus| && CoreOk(s) && TreeOk(s)
    ensures Active(s, c).isr != Idle ==> LockFree(Active(s, c).base, Self(s, c))
    ensures var pc := Active(s, c).base; pc.Fork? && Ready(pc.fk) && pc.fk.i < |s.procs| ==> s.procs[pc.fk.i].pid == pc.fk.pid
  {
    hide LocksOk;
    hide NoffOk;
    hide SlotsOk;
    hide LinkOk;
    hide OffOk;
    hide LockFree;
    assert CpuOk(s, c);
    if Self(s, c) < |s.threads| {
      assert ThreadOk(s, Self(s, c)) && TreeThread(s, Self(s, c));
    }
  }

  lemma LearnedActor(s: State, c: nat, act: Act, upd: Upd, next: Ctx, s': State)
    requires StepBy(s, c, act, upd, next, s') && CoreOk(s) && TreeOk(s)
    requires CtxLearned(s.procs, s.init, Active(s, c), Self(s, c))
    ensures c < |s'.cpus| && CtxLearned(s'.procs, s'.init, Active(s', c), Self(s', c))
  {
    Linked(s, c, act, upd, next, s');
    Sizes(s, c, act, upd, next, s');
    NextActive(s, c, act, upd, next, s');
    NextLearned(s, c, act, upd, next);
    hide *;
    var ctx, self := Active(s', c), Self(s', c);
    if !(ctx == next && self == Self(s, c)) {
      NothingLearned(s'.procs, s'.init, ctx, self);
    }
    EffectProcs(s, upd, s');
  }

  lemma EffectProcs(s: State, upd: Upd, s': State)
    requires Effect(s, upd, s')
    ensures s'.procs == ProcsAfter(s.procs, upd) && s'.init == s.init
  {
  }

  /** After its step a CPU executes the next point of the same code, or what swtch resumed. */
  lemma NextActive(s: State, c: nat, act: Act, upd: Upd, next: Ctx, s': State)
    requires StepBy(s, c, act, upd, next, s') && CoreOk(s)
    ensures c < |s'.cpus|
    ensures var ctx, self := Active(s', c), Self(s', c);
      || (ctx == next && self == Self(s, c))
      || Resumable(ctx, self) || (ctx.base.Sched? && ctx.isr == Idle && ctx.base.q.SchClear?)
  {
    hide LocksOk;
    hide NoffOk;
    hide Held;
    hide OffOk;
    Granted(s, c, act, upd, next);
    assert CpuOk(s, c);
    if Self(s, c) < |s.threads| {
      assert SlotOk(s, Self(s, c)) && ThreadOk(s, Self(s, c));
    } else {
      SchedNext(s, c, act, upd, next);
    }
    hide Next;
  }

  lemma LearnedStep(s: State, c: nat, act: Act, upd: Upd, next: Ctx, s': State)
    requires StepBy(s, c, act, upd, next, s') && CoreOk(s) && TreeOk(s) && LearnedOk(s)
    ensures LearnedOk(s')
  {
    hide StepBy;
    hide CoreOk;
    hide TreeOk;
    hide CtxLearned;
    hide Self;
    hide Active;
    Sizes(s, c, act, upd, next, s');
    Actor(s, c, act, upd, next, s');
    forall d: nat | d < |s'.cpus| ensures CtxLearned(s'.procs, s'.init, Active(s', d), Self(s', d)) {
      assert CtxLearned(s.procs, s.init, Active(s, d), Self(s, d));
      if d == c {
        LearnedActor(s, c, act, upd, next, s');
      } else {
        LearnedOther(s, c, act, upd, next, s', d);
      }
    }
  }

  /** allocproc puts in a slot the pid that its thread has in hand. */
  lemma ActorPid(s: State, c: nat, upd: Upd)
    requires CoreOk(s) && c < |s.cpus| && Grant(s, Active(s, c), Self(s, c), upd)
    ensures upd.SetPid? && upd.pid != 0 ==>
      Self(s, c) < |s.threads| && PidAt(s.threads[Self(s, c)].base) == Some(upd.pid)
  {
    hide LocksOk;
    hide NoffOk;
    hide SlotsOk;
    hide Held;
    assert CpuOk(s, c);
  }

  lemma NextIs(s: State, c: nat, act: Act, upd: Upd, next: Ctx, s': State)
    requires StepBy(s, c, act, upd, next, s')
    ensures c < |s.cpus| && Next(s, c, act, upd, next)
  {
  }
}
