/** The slots that fork fills and wait frees, after a step. */
module SlotSteps {
  import opened ProcTypes
  import opened Machine
  import opened Locks
  import opened Invariant
  import opened CoreSteps
  import opened PlaceSteps

  /** A thread at a point where it holds a lock, and not switched out there, is on some CPU. */
  lemma OnCpu(s: State, t: nat) returns (d: nat)
    requires PlaceOk(s) && t < |s.threads| && !LockFree(s.threads[t].base, t)
    requires !s.threads[t].base.ForkRet? && !(s.threads[t].base.Sleep? && s.threads[t].base.sl.SlResume?)
    requires !(s.threads[t].base.Exit? && s.threads[t].base.ex.ExDead?)
    ensures d < |s.cpus| && Self(s, d) == t && Active(s, d) == s.threads[t] && s.threads[t].isr == Idle
  {
    hide LockFree;
    assert ThreadOk(s, t);
    assert Placed(s, t);
    d :| d < |s.cpus| && Place(s.cpus[d].ctx.base) == Some(t);
    assert CpuOk(s, d) && !Resumable(s.threads[t], t);
  }

  /** Two threads that hold the same lock at such points are the same thread. */
  lemma OneHolder(s: State, c: nat, t: nat, l: Lock)
    requires LocksOk(s) && PlaceOk(s) && c < |s.cpus| && l in Held(Active(s, c), Self(s, c))
    requires t < |s.threads| && l in HeldPc(s.threads[t].base, t)
    requires !s.threads[t].base.ForkRet? && !(s.threads[t].base.Sleep? && s.threads[t].base.sl.SlResume?)
    requires !(s.threads[t].base.Exit? && s.threads[t].base.ex.ExDead?)
    ensures Self(s, c) == t
  {
    hide HeldPc;
    hide HeldIsr;
    hide LocksOk;
    hide PlaceOk;
    var d := OnCpu(s, t);
    Exclusive(s, c, d, l);
  }

  // ----- threads that do not move -----

  /** The slot that thread `t` works on keeps the state that goes with the program point. */
  lemma StateKept(s: State, c: nat, upd: Upd, t: nat)
    requires LocksOk(s) && PlaceOk(s) && SlotsOk(s) && c < |s.cpus| && t < |s.threads|
    requires Grant(s, Active(s, c), Self(s, c), upd) && upd.SetState?
    requires t == Self(s, c) ==> s.threads[t].isr != Idle
    ensures SlotAt(ProcsAfter(s.procs, upd), s.threads[t].base)
  {
    hide LocksOk;
    hide Held;
    hide OffOk;
    var self, pc := Self(s, c), s.threads[t].base;
    assert SlotOk(s, t) && ThreadOk(s, t) && CpuOk(s, c);
    assert self < |s.threads| ==> SlotOk(s, self);
    if EarlySlot(pc) == Some(upd.i) {
      EarlyHolds(pc, t, upd.i);
      OneHolder(s, c, t, PLock(upd.i));
    }
    if pc.Wait? && pc.wt.WtFree? && pc.wt.j == upd.i {
      OneHolder(s, c, t, PLock(upd.i));
    }
  }

  lemma SlotUnmoved(s: State, c: nat, act: Act, upd: Upd, next: Ctx, s': State, t: nat)
    requires StepBy(s, c, act, upd, next, s') && CoreOk(s) && t < |s.threads| && |s'.threads| == |s'.procs| == |s.threads|
    requires s'.threads[t].base == s.threads[t].base
    requires t == Self(s, c) ==> !upd.SetState? || s.threads[t].isr != Idle
    ensures SlotOk(s', t)
  {
    hide Next;
    hide LocksOk;
    hide NoffOk;
    hide CpuOk;
    hide ThreadOk;
    hide Grant;
    hide Ready;
    Granted(s, c, act, upd, next);
    var pc := s.threads[t].base;
    assert SlotOk(s, t);
    assert SlotAt(s'.procs, pc) by {
      if upd.SetState? {
        StateKept(s, c, upd, t);
      }
    }
    if Slot(pc).Some? {
      SlotThread(s, c, act, upd, next, s', pc.fk.i);
    }
  }

  lemma EarlyHolds(pc: Pc, t: nat, i: nat)
    requires EarlySlot(pc) == Some(i)
    ensures PLock(i) in HeldPc(pc, t)
  {
  }

  /** The thread of a USED slot stays, or becomes ready. */
  lemma SlotThread(s: State, c: nat, act: Act, upd: Upd, next: Ctx, s': State, i: nat)
    requires StepBy(s, c, act, upd, next, s') && PlaceOk(s) && SlotsOk(s) && i < |s.procs| && s.procs[i].state == USED
    ensures i < |s'.threads| && (s'.threads[i] == s.threads[i] || s'.threads[i] == Ctx(ForkRet, Idle))
  {
    hide Next;
    hide OffOk;
    hide OnState;
    var self := Self(s, c);
    if self < |s.threads| {
      assert CpuOk(s, c);
      OnStates(s.threads[self]);
    }
  }

  // ----- the thread that moves -----

  predicate StateIs(procs: seq<Proc>, i: nat, st: ProcState) {
    i < |procs| && procs[i].state == st
  }

  /** What SlotOk says of one program point, in terms of the slots and whether a context is set. */
  ghost predicate SlotAt(procs: seq<Proc>, pc: Pc) {
    && (EarlySlot(pc).Some? ==> StateIs(procs, EarlySlot(pc).value, UNUSED))
    && (Slot(pc).Some? ==> StateIs(procs, Slot(pc).value, USED))
    && (pc.Wait? && pc.wt.WtFree? ==> StateIs(procs, pc.wt.j, ZOMBIE))
  }

  predicate HasContext(pc: Pc) {
    Slot(pc).Some? && (Ready(pc.fk) || pc.fk.FkCopy? || pc.fk.FkCopyUnlk?)
  }

  lemma AllocSlot(s: State, self: nat, q: ForkPc, act: Act, upd: Upd, pc': Pc)
    requires ForkStep(s, self, q, act, upd, pc') && InAlloc(q) && SlotAt(s.procs, Fork(q))
    ensures SlotAt(ProcsAfter(s.procs, upd), pc')
  {
  }

  lemma FillSlot(s: State, self: nat, q: ForkPc, act: Act, upd: Upd, pc': Pc)
    requires ForkStep(s, self, q, act, upd, pc') && !InAlloc(q) && SlotAt(s.procs, Fork(q))
    ensures SlotAt(ProcsAfter(s.procs, upd), pc')
  {
    hide FreeStep;
    if q.FkUndo? && pc'.Fork? && pc'.fk.FkUndo? {
      FreeKeeps(q.i, q.f, act, upd, pc'.fk.f);
    }
  }

  lemma ForkSlot(s: State, self: nat, q: ForkPc, act: Act, upd: Upd, pc': Pc)
    requires ForkStep(s, self, q, act, upd, pc') && SlotAt(s.procs, Fork(q))
    ensures SlotAt(ProcsAfter(s.procs, upd), pc')
  {
    hide ForkStep;
    hide SlotAt;
    hide InAlloc;
    if InAlloc(q) {
      AllocSlot(s, self, q, act, upd, pc');
    } else {
      FillSlot(s, self, q, act, upd, pc');
    }
  }

  lemma ForkContext(s: State, self: nat, q: ForkPc, act: Act, upd: Upd, pc': Pc)
    requires ForkStep(s, self, q, act, upd, pc')
    ensures HasContext(pc') ==> upd == SetContext(pc'.fk.i) || (HasContext(Fork(q)) && Slot(Fork(q)) == Slot(pc'))
    ensures Slot(pc').Some? ==> Slot(Fork(q)) == Slot(pc') || q == FkUsed(Slot(pc').value)
  {
    hide FreeStep;
    hide ProcsAfter;
  }

  lemma FreeKeeps(i: nat, f: Free, act: Act, upd: Upd, f': Free)
    requires FreeStep(i, f, act, upd, f')
    ensures !upd.SetState?
  {
  }

  lemma WaitSlot(s: State, self: nat, q: WaitPc, act: Act, upd: Upd, pc': Pc)
    requires self < |s.procs| && WaitStep(s, self, q, act, upd, pc') && SlotAt(s.procs, Wait(q))
    ensures SlotAt(ProcsAfter(s.procs, upd), pc') && Slot(pc') == None
  {
    hide FreeStep;
    if q.WtFree? && pc'.Wait? && pc'.wt.WtFree? {
      FreeKeeps(q.j, q.f, act, upd, pc'.wt.f);
    }
  }

  lemma OtherSlot(s: State, c: nat, self: nat, pc: Pc, act: Act, upd: Upd, pc': Pc)
    requires c < |s.cpus| && BaseStep(s, c, self, pc, act, upd, pc') && !pc.Fork? && !pc.Wait?
    ensures EarlySlot(pc') == None && Slot(pc') == None && !(pc'.Wait? && pc'.wt.WtFree?)
  {
    hide WakeStep;
    hide Elapsed;
  }

  /** The slots of the thread that takes a step of its own code. */
  lemma BaseSlot(s: State, c: nat, self: nat, pc: Pc, act: Act, upd: Upd, pc': Pc)
    requires c < |s.cpus| && BaseStep(s, c, self, pc, act, upd, pc') && SlotAt(s.procs, pc)
    ensures SlotAt(ProcsAfter(s.procs, upd), pc')
    ensures HasContext(pc') ==> upd == SetContext(pc'.fk.i) || (HasContext(pc) && Slot(pc) == Slot(pc'))
    ensures Slot(pc').Some? ==> Slot(pc) == Slot(pc') || pc == Fork(FkUsed(Slot(pc').value))
  {
    hide ForkStep;
    hide WaitStep;
    hide SleepStep;
    hide ExitStep;
    hide SchedStep;
    hide TicksStep;
    hide TrapStep;
    hide KillStep;
    hide UserStep;
    match pc
    case Fork(q) =>
      ForkSlot(s, self, q, act, upd, pc');
      ForkContext(s, self, q, act, upd, pc');
    case Wait(q) => WaitSlot(s, self, q, act, upd, pc');
    case _ => OtherSlot(s, c, self, pc, act, upd, pc');
  }

  lemma SlotMoved(s: State, c: nat, act: Act, upd: Upd, next: Ctx, s': State)
    requires StepBy(s, c, act, upd, next, s') && CoreOk(s) && Self(s, c) < |s.threads| == |s'.threads| == |s'.procs|
    requires s.threads[Self(s, c)].isr == Idle && BaseStep(s, c, Self(s, c), s.threads[Self(s, c)].base, act, upd, next.base)
    ensures SlotOk(s', Self(s, c)) && s'.threads[Self(s, c)].base == next.base
    ensures Slot(next.base).Some? ==>
      Slot(next.base) == Slot(s.threads[Self(s, c)].base) || StateIs(s.procs, Slot(next.base).value, UNUSED)
  {
    hide LocksOk;
    hide NoffOk;
    hide Next;
    hide BaseStep;
    hide CpuOk;
    hide ThreadOk;
    var self, pc := Self(s, c), s.threads[Self(s, c)].base;
    ThreadCpu(s, c, act, upd, next, s');
    assert SlotOk(s, self);
    BaseSlot(s, c, self, pc, act, upd, next.base);
    if HasContext(next.base) && upd != SetContext(next.base.fk.i) {
      SlotThread(s, c, act, upd, next, s', next.base.fk.i);
    }
  }

  lemma SlotStep(s: State, c: nat, act: Act, upd: Upd, next: Ctx, s': State, t: nat)
    requires StepBy(s, c, act, upd, next, s') && CoreOk(s) && t < |s.threads| && |s'.threads| == |s'.procs| == |s.threads|
    ensures SlotOk(s', t)
    ensures Slot(s'.threads[t].base) == Slot(s.threads[t].base) || Slot(s'.threads[t].base) == None
         || (t == Self(s, c) && StateIs(s.procs, Slot(s'.threads[t].base).value, UNUSED))
  {
    hide LocksOk;
    hide NoffOk;
    hide BaseStep;
    hide IsrStep;
    hide CpuOk;
    hide ThreadOk;
    hide SlotOk;
    var self := Self(s, c);
    if t == self {
      ThreadCpu(s, c, act, upd, next, s');
      if s.threads[t].isr == Idle && BaseStep(s, c, self, s.threads[t].base, act, upd, next.base) {
        SlotMoved(s, c, act, upd, next, s');
      } else {
        SlotUnmoved(s, c, act, upd, next, s', t);
      }
    } else if upd == SetContext(t) {
      assert s'.threads[t] == Ctx(ForkRet, Idle);
      ForkRetSlot(s', t);
    } else {
      SlotUnmoved(s, c, act, upd, next, s', t);
    }
  }

  lemma ForkRetSlot(s: State, t: nat)
    requires t < |s.threads| == |s.procs| && s.threads[t] == Ctx(ForkRet, Idle)
    ensures SlotOk(s, t) && Slot(s.threads[t].base) == None
  {
  }

  lemma SlotsStep(s: State, c: nat, act: Act, upd: Upd, next: Ctx, s': State)
    requires StepBy(s, c, act, upd, next, s') && CoreOk(s)
    ensures |s'.threads| == |s'.procs| && SlotsOk(s')
  {
    hide StepBy;
    hide LocksOk;
    hide NoffOk;
    hide CpuOk;
    hide ThreadOk;
    Sizes(s, c, act, upd, next, s');
    Actor(s, c, act, upd, next, s');
    forall t: nat | t < |s'.threads|
      ensures SlotOk(s', t)
      ensures Slot(s'.threads[t].base) == Slot(s.threads[t].base) || Slot(s'.threads[t].base) == None
         || (t == Self(s, c) && StateIs(s.procs, Slot(s'.threads[t].base).value, UNUSED))
    {
      SlotStep(s, c, act, upd, next, s', t);
    }
    forall t: nat, u: nat | t < |s'.threads| && u < |s'.threads| && Slot(s'.threads[t].base).Some?
          && Slot(s'.threads[t].base) == Slot(s'.threads[u].base)
      ensures t == u
    {
      assert SlotOk(s, t) && SlotOk(s, u);
    }
  }

  lemma CoreStep(s: State, c: nat, act: Act, upd: Upd, next: Ctx, s': State)
    requires StepBy(s, c, act, upd, next, s') && CoreOk(s)
    ensures CoreOk(s')
  {
    hide StepBy;
    hide LocksOk;
    hide NoffOk;
    hide PlaceOk;
    hide SlotsOk;
    LocksStep(s, c, act, upd, next, s');
    NoffStep(s, c, act, upd, next, s');
    PlaceStep(s, c, act, upd, next, s');
    SlotsStep(s, c, act, upd, next, s');
  }
}
