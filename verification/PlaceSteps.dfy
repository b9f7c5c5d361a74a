/** Locks, noff and the places of processes after a step. */
module PlaceSteps {
  import opened ProcTypes
  import opened Machine
  import opened Locks
  import opened Invariant
  import opened CoreSteps

  lemma Sizes(s: State, c: nat, act: Act, upd: Upd, next: Ctx, s': State)
    requires StepBy(s, c, act, upd, next, s')
    ensures |s'.threads| == |s.threads| && |s'.procs| == |s.procs| && |s'.cpus| == |s.cpus| && s'.init == s.init
  {
    hide Next;
  }

  /** The other CPUs go on executing what they did. */
  lemma OthersKeep(s: State, c: nat, act: Act, upd: Upd, next: Ctx, s': State, d: nat)
    requires StepBy(s, c, act, upd, next, s') && PlaceOk(s) && SlotsOk(s) && d < |s.cpus| && d != c
    ensures s'.cpus[d] == s.cpus[d] && Self(s', d) == Self(s, d) && Active(s', d) == Active(s, d)
  {
    hide Next;
    hide OffOk;
    hide Held;
    Granted(s, c, act, upd, next);
    assert CpuOk(s, c) && CpuOk(s, d);
    var t, self := Self(s, d), Self(s, c);
    if t < |s.threads| {
      assert s.procs[t].state != USED;
      assert Place(s.cpus[d].ctx.base) == Some(t);
      assert self < |s.threads| ==> SlotOk(s, self);
    }
  }

  /** What CPU `c` holds once it has taken its step. */
  lemma ActorHolds(s: State, c: nat, act: Act, upd: Upd, next: Ctx, s': State)
    requires StepBy(s, c, act, upd, next, s') && NoffOk(s) && PlaceOk(s) && SlotsOk(s)
    ensures InOrder(Held(Active(s, c), Self(s, c)), act, Held(Active(s', c), Self(s', c)))
    ensures upd == SetIntr(true) ==> Held(Active(s', c), Self(s', c)) == {}
    ensures s'.cpus[c].noff == CpuAct(s.cpus[c], act).noff
    ensures s'.cpus[c].intr == if upd.SetIntr? then upd.on else CpuAct(s.cpus[c], act).intr
  {
    hide Next;
    hide Held;
    hide SlotsOk;
    hide PlaceOk;
    ActOrder(s, c, act, upd, next);
    if Self(s, c) < |s.threads| {
      ThreadActive(s, c, act, upd, next, s');
    } else {
      SchedActive(s, c, act, upd, next, s');
    }
  }

  lemma ThreadActive(s: State, c: nat, act: Act, upd: Upd, next: Ctx, s': State)
    requires StepBy(s, c, act, upd, next, s') && NoffOk(s) && PlaceOk(s) && SlotsOk(s) && Self(s, c) < |s.threads|
    ensures !upd.SwitchOut? ==> Active(s', c) == next && Self(s', c) == Self(s, c)
    ensures upd.SwitchOut? ==> Held(Active(s', c), Self(s', c)) == {PLock(upd.i)}
  {
    hide Next;
    hide Held;
    hide OffOk;
    hide NoffOk;
    Granted(s, c, act, upd, next);
    var self := Self(s, c);
    assert CpuOk(s, c) && SlotOk(s, self) && ThreadOk(s, self);
    ClearHolds(self, |s.threads|);
  }

  lemma SchedActive(s: State, c: nat, act: Act, upd: Upd, next: Ctx, s': State)
    requires StepBy(s, c, act, upd, next, s') && NoffOk(s) && PlaceOk(s) && SlotsOk(s) && Self(s, c) >= |s.threads|
    ensures !upd.SwitchOut? && Held(Active(s', c), Self(s', c)) == Held(next, Self(s, c))
  {
    hide OffOk;
    hide NoffOk;
    hide HeldPc;
    hide HeldIsr;
    SchedNext(s, c, act, upd, next);
    hide Next;
    Sizes(s, c, act, upd, next, s');
  }

  lemma ClearHolds(i: nat, self: nat)
    ensures Held(Ctx(Sched(SchClear(i)), Idle), self) == {PLock(i)}
  {
  }

  /** The scheduler's own step; swtch passes p->lock on to the thread it resumes. */
  lemma SchedNext(s: State, c: nat, act: Act, upd: Upd, next: Ctx)
    requires c < |s.cpus| && PlaceOk(s) && Next(s, c, act, upd, next) && Self(s, c) >= |s.threads|
    ensures next.base.Sched? && !upd.SwitchOut? && !upd.SetContext?
    ensures InThread(next.base) != None ==>
      && act == Nop && upd == NoUpd && next.isr == Idle && next.base.q.i < |s.threads|
      && Held(next, |s.threads|) == Held(s.threads[next.base.q.i], next.base.q.i)
      && s.cpus[c].ctx == Ctx(Sched(SchGo(next.base.q.i)), Idle)
  {
    assert CpuOk(s, c);
  }

  lemma LocksStep(s: State, c: nat, act: Act, upd: Upd, next: Ctx, s': State)
    requires StepBy(s, c, act, upd, next, s') && CoreOk(s)
    ensures LocksOk(s')
  {
    hide Next;
    hide Held;
    hide PlaceOk;
    hide SlotsOk;
    hide Self;
    hide Active;
    ActorHolds(s, c, act, upd, next, s');
    forall d: nat, l | d < |s'.cpus|
      ensures (l in s'.held && s'.held[l] == d) <==> l in Held(Active(s', d), Self(s', d))
    {
      assert (l in s.held && s.held[l] == d) <==> l in Held(Active(s, d), Self(s, d));
      if d != c {
        OthersKeep(s, c, act, upd, next, s', d);
        if act.Release? {
          assert act.l in s.held && s.held[act.l] == c;
        }
      }
    }
  }

  lemma NoffStep(s: State, c: nat, act: Act, upd: Upd, next: Ctx, s': State)
    requires StepBy(s, c, act, upd, next, s') && CoreOk(s)
    ensures NoffOk(s')
  {
    hide Next;
    hide Held;
    hide PlaceOk;
    hide SlotsOk;
    hide Self;
    hide Active;
    ActorHolds(s, c, act, upd, next, s');
    var h, h' := Held(Active(s, c), Self(s, c)), Held(Active(s', c), Self(s', c));
    forall d: nat | d < |s'.cpus|
      ensures s'.cpus[d].noff == |Held(Active(s', d), Self(s', d))| && (s'.cpus[d].noff > 0 ==> !s'.cpus[d].intr)
    {
      if d != c {
        OthersKeep(s, c, act, upd, next, s', d);
      } else {
        assert act.Acquire? ==> act.l !in h;
        assert s.cpus[c].noff == |h|;
      }
    }
  }

  // ----- the state of the process a CPU executes -----

  /** Which state goes with the next program point, when the thread stays on its CPU. */
  ghost predicate OnNext(self: nat, pc: Pc, upd: Upd, pc': Pc) {
    var next := Ctx(pc', Idle);
    && !pc'.Sched?
    && (pc.Sleep? && pc.sl.SlState? ==> upd == SetState(self, SLEEPING))
    && (pc.Sleep? && pc.sl.SlSwitch? ==> upd.SwitchOut?)
    && (pc.Exit? && pc.ex.ExZombie? ==> upd == SetState(self, ZOMBIE))
    && (!upd.SwitchOut? ==>
      && !Dead(next)
      && OnState(next) == (if pc.Sleep? && pc.sl.SlState? then SLEEPING
                           else if pc.Exit? && pc.ex.ExZombie? then ZOMBIE
                           else OnState(Ctx(pc, Idle))))
    && (upd.SwitchOut? ==>
      && (pc.Sleep? ==> pc'.Sleep? && pc'.sl.SlResume?)
      && (pc.Exit? ==> Dead(next)))
  }

  lemma ExitOn(s: State, c: nat, self: nat, q: ExitPc, st: int, act: Act, upd: Upd, pc': Pc)
    requires c < |s.cpus| && self < |s.procs| && ExitStep(s, c, self, q, st, act, upd, pc')
    ensures OnNext(self, Exit(q, st), upd, pc')
  {
  }

  lemma WaitOn(s: State, self: nat, q: WaitPc, act: Act, upd: Upd, pc': Pc)
    requires self < |s.procs| && WaitStep(s, self, q, act, upd, pc')
    ensures OnNext(self, Wait(q), upd, pc')
  {
    hide KilledStep;
    WaitOrder(s, self, q, act, upd, pc');
  }

  lemma ForkOn(s: State, self: nat, q: ForkPc, act: Act, upd: Upd, pc': Pc)
    requires ForkStep(s, self, q, act, upd, pc')
    ensures OnNext(self, Fork(q), upd, pc')
  {
    ForkOrder(s, self, q, act, upd, pc');
  }

  lemma BaseOn(s: State, c: nat, self: nat, pc: Pc, act: Act, upd: Upd, pc': Pc)
    requires c < |s.cpus| && BaseStep(s, c, self, pc, act, upd, pc') && !pc.Sched?
    ensures OnNext(self, pc, upd, pc')
  {
    hide ExitStep;
    hide WaitStep;
    hide ForkStep;
    hide Elapsed;
    match pc
    case Exit(q, st) => ExitOn(s, c, self, q, st, act, upd, pc');
    case Wait(q) => WaitOn(s, self, q, act, upd, pc');
    case Fork(q) => ForkOn(s, self, q, act, upd, pc');
    case _ =>
  }

  lemma IsrOn(s: State, c: nat, self: nat, base: Pc, isr: Isr, act: Act, upd: Upd, isr': Isr)
    requires c < |s.cpus| && isr != Idle && IsrStep(s, c, self, base, isr, act, upd, isr')
    ensures (isr' == YSwitch <==> isr == YSet) && (upd.SwitchOut? ==> isr'.YResume?) && (isr == YSwitch ==> upd.SwitchOut?)
    ensures isr == YSet ==> upd == SetState(self, RUNNABLE)
  {
  }

  /** A lock-free program point runs in state RUNNING and is not a parked one. */
  lemma LockFreeOn(pc: Pc, self: nat)
    requires LockFree(pc, self)
    ensures OnState(Ctx(pc, Idle)) == RUNNING && !Dead(Ctx(pc, Idle)) && !pc.ForkRet?
    ensures pc.Sleep? ==> !pc.sl.SlResume? && !pc.sl.SlState?
    ensures !(pc.Exit? && pc.ex.ExZombie?)
  {
  }

  /** A process that is on a CPU and not RUNNING is locked by that CPU. */
  lemma OnLocked(s: State, d: nat, i: nat)
    requires d < |s.cpus| && PlaceOk(s) && Place(s.cpus[d].ctx.base) == Some(i) && i < |s.procs| && s.procs[i].state != RUNNING
    ensures PLock(i) in Held(Active(s, d), Self(s, d)) && Self(s, d) == i
    ensures s.procs[i].state == RUNNABLE || s.procs[i].state == SLEEPING || s.procs[i].state == ZOMBIE
  {
    assert CpuOk(s, d);
  }

  lemma Exclusive(s: State, c: nat, d: nat, l: Lock)
    requires LocksOk(s) && c < |s.cpus| && d < |s.cpus|
    requires l in Held(Active(s, c), Self(s, c)) && l in Held(Active(s, d), Self(s, d))
    ensures c == d
  {
    hide Held;
    assert (l in s.held && s.held[l] == c) && (l in s.held && s.held[l] == d);
  }

  /** While CPU `c` holds p->lock, a process on another CPU is RUNNING. */
  lemma LockedElsewhere(s: State, c: nat, d: nat, i: nat)
    requires CoreOk(s) && c < |s.cpus| && d < |s.cpus| && c != d
    requires PLock(i) in Held(Active(s, c), Self(s, c)) && Place(s.cpus[d].ctx.base) == Some(i)
    ensures i < |s.procs| && s.procs[i].state == RUNNING
  {
    hide Held;
    hide LocksOk;
    assert CpuOk(s, d);
    if s.procs[i].state != RUNNING {
      OnLocked(s, d, i);
      Exclusive(s, c, d, PLock(i));
    }
  }

  // ----- CpuOk -----

  lemma OtherCpu(s: State, c: nat, act: Act, upd: Upd, next: Ctx, s': State, d: nat)
    requires d < |s'.cpus| && |s'.threads| == |s'.procs|
    requires StepBy(s, c, act, upd, next, s') && CoreOk(s) && d < |s.cpus| && d != c
    ensures CpuOk(s', d)
  {
    hide Next;
    hide Held;
    hide Resumable;
    hide LocksOk;
    hide NoffOk;
    OthersKeep(s, c, act, upd, next, s', d);
    Granted(s, c, act, upd, next);
    assert CpuOk(s, d) && CpuOk(s, c);
    var q := Place(s.cpus[d].ctx.base);
    if q.Some? {
      var i := q.value;
      assert Self(s, c) != i;
      if upd.SetState? && upd.i == i {
        LockedElsewhere(s, c, d, i);
      }
      if upd.SetContext? {
        assert SlotOk(s, Self(s, c));
      }
    }
  }

  /** Thread `self` goes on at `next`: the state its process then has, on or off the CPU. */
  ghost predicate ThreadGoes(s: State, self: nat, upd: Upd, next: Ctx) {
    && self < |s.procs| && !next.base.Sched? && (next.isr != Idle ==> LockFree(next.base, self))
    && (upd.SwitchOut? ==> OffOk(next, s.procs[self].state, self))
    && (!upd.SwitchOut? ==> ProcsAfter(s.procs, upd)[self].state == OnState(next) && !Dead(next))
  }

  /** The thread a CPU executes, and the state of its process, after the step. */
  lemma ThreadNext(s: State, c: nat, act: Act, upd: Upd, next: Ctx)
    requires c < |s.cpus| && CoreOk(s) && Next(s, c, act, upd, next) && Self(s, c) < |s.threads|
    ensures ThreadGoes(s, Self(s, c), upd, next)
  {
    hide LocksOk;
    hide NoffOk;
    hide IsrStep;
    hide BaseStep;
    hide LockFree;
    hide Held;
    var ctx, self := Active(s, c), Self(s, c);
    assert CpuOk(s, c) && ThreadOk(s, self) && SlotOk(s, self);
    Granted(s, c, act, upd, next);
    if ctx.isr != Idle {
      IsrOn(s, c, self, ctx.base, ctx.isr, act, upd, next.isr);
      LockFreeOn(ctx.base, self);
    } else if next.isr == Idle && BaseStep(s, c, self, ctx.base, act, upd, next.base) {
      BaseOn(s, c, self, ctx.base, act, upd, next.base);
    } else {
      IntrHolds(s, c);
      LockFreeIs(ctx, self);
      LockFreeOn(ctx.base, self);
    }
  }

  /** The acting CPU, when it executes a thread. */
  lemma ThreadCpu(s: State, c: nat, act: Act, upd: Upd, next: Ctx, s': State)
    requires StepBy(s, c, act, upd, next, s') && CoreOk(s) && Self(s, c) < |s.threads|
    ensures |s'.threads| == |s'.procs| && CpuOk(s', c)
    ensures s'.cpus[c].ctx == if upd.SwitchOut? then Ctx(Sched(SchClear(Self(s, c))), Idle) else s.cpus[c].ctx
    ensures upd.SwitchOut? ==> upd.i == Self(s, c)
    ensures |s'.threads| == |s.threads| && s'.threads[Self(s, c)] == next
  {
    Sizes(s, c, act, upd, next, s');
    hide LocksOk;
    hide Next;
    hide OnState;
    hide Dead;
    hide OffOk;
    hide Held;
    hide Resumable;
    var self := Self(s, c);
    assert CpuOk(s, c) && ThreadOk(s, self) && SlotOk(s, self);
    OnStates(s.threads[self]);
    Granted(s, c, act, upd, next);
    ThreadNext(s, c, act, upd, next);
  }

  lemma OnStates(ctx: Ctx)
    ensures OnState(ctx) != UNUSED && OnState(ctx) != USED
  {
  }

  lemma LockFreeIs(ctx: Ctx, self: nat)
    requires ctx.isr == Idle && Held(ctx, self) == {}
    ensures LockFree(ctx.base, self)
  {
  }

  /** Where a CPU's scheduler goes, and what becomes of the place of a process. */
  ghost predicate SchedMove(s: State, q: Option<nat>, upd: Upd, q': Option<nat>) {
    && !upd.SwitchOut? && !upd.SetContext?
    && (q' == q || (upd.SetState? && upd.st == RUNNING))
    && (q.Some? ==> q' == q)
    && (upd.SetState? && upd.st == RUNNING ==> q == None && q' == Some(upd.i) && !Placed(s, upd.i))
  }

  lemma SchedMoves(s: State, c: nat, act: Act, upd: Upd, next: Ctx)
    requires c < |s.cpus| && Next(s, c, act, upd, next) && CoreOk(s) && Self(s, c) >= |s.threads|
    ensures SchedMove(s, Place(s.cpus[c].ctx.base), upd, Place(next.base))
  {
    hide LocksOk;
    hide NoffOk;
    hide Held;
    hide IsrStep;
    var ctx := s.cpus[c].ctx;
    assert CpuOk(s, c);
    if ctx.isr != Idle {
      SchedIsr(s, c, ctx, act, upd, next);
    } else if next.isr == Idle && BaseStep(s, c, |s.threads|, ctx.base, act, upd, next.base) {
      hide Placed;
      if ctx.base.q.SchTest? && s.procs[ctx.base.q.i].state == RUNNABLE {
        HeldAt(s, c, ctx.base.q.i);
        NotPlaced(s, c, ctx.base.q.i);
      }
    }
  }

  lemma HeldAt(s: State, c: nat, i: nat)
    requires c < |s.cpus| && s.cpus[c].ctx == Ctx(Sched(SchTest(i)), Idle)
    ensures PLock(i) in Held(Active(s, c), Self(s, c))
  {
  }

  lemma SchedCpuOk(s: State, c: nat, act: Act, upd: Upd, next: Ctx, s': State)
    requires StepBy(s, c, act, upd, next, s') && CoreOk(s) && Self(s, c) >= |s.threads|
    requires SchedMove(s, Place(s.cpus[c].ctx.base), upd, Place(next.base))
    ensures |s'.threads| == |s'.procs| && s'.cpus[c].ctx == next && CpuOk(s', c)
  {
    hide LocksOk;
    hide Held;
    hide IsrStep;
    hide BaseStep;
    hide Placed;
    Sizes(s, c, act, upd, next, s');
    var ctx := s.cpus[c].ctx;
    assert CpuOk(s, c);
    if ctx.isr != Idle {
      SchedIsr(s, c, ctx, act, upd, next);
    } else if next.isr == Idle && BaseStep(s, c, |s.threads|, ctx.base, act, upd, next.base) {
      SchedBaseCpu(s, c, act, upd, next, s');
    } else {
      IntrHolds(s, c);
      LockFreeIs(ctx, |s.threads|);
    }
  }

  /** The scheduler's own step: c->proc and the state of the process go with the next point. */
  lemma SchedBaseCpu(s: State, c: nat, act: Act, upd: Upd, next: Ctx, s': State)
    requires c < |s.cpus| == |s'.cpus| && s' == Apply(s, c, act, upd, next) && |s'.threads| == |s'.procs|
    requires PlaceOk(s) && Self(s, c) >= |s.threads| && !upd.SwitchOut? && !upd.SetContext?
    requires upd.SetState? && upd.st == RUNNING ==> !Placed(s, upd.i)
    requires s.cpus[c].ctx.isr == Idle && next.isr == Idle && BaseStep(s, c, |s.threads|, s.cpus[c].ctx.base, act, upd, next.base)
    ensures CpuOk(s', c)
  {
    hide LockFree;
    hide Placed;
    var q := s.cpus[c].ctx.base.q;
    assert CpuOk(s, c);
    if q.SchTest? && s.procs[q.i].state == RUNNABLE {
      assert ThreadOk(s, q.i);
    }
  }

  /** The acting CPU, when it executes its scheduler. */
  lemma SchedCpu(s: State, c: nat, act: Act, upd: Upd, next: Ctx, s': State)
    requires StepBy(s, c, act, upd, next, s') && CoreOk(s) && Self(s, c) >= |s.threads|
    ensures |s'.threads| == |s'.procs| && CpuOk(s', c)
    ensures s'.cpus[c].ctx == next && SchedMove(s, Place(s.cpus[c].ctx.base), upd, Place(next.base))
  {
    hide CoreOk;
    hide Next;
    hide CpuOk;
    hide Place;
    hide SchedMove;
    SchedMoves(s, c, act, upd, next);
    SchedCpuOk(s, c, act, upd, next, s');
  }

  lemma SchedIsr(s: State, c: nat, ctx: Ctx, act: Act, upd: Upd, next: Ctx)
    requires c < |s.cpus| && PlaceOk(s) && SlotsOk(s) && ctx == s.cpus[c].ctx && ctx.isr != Idle && !Yielding(ctx.isr)
    requires next.base == ctx.base && IsrStep(s, c, |s.threads|, ctx.base, ctx.isr, act, upd, next.isr)
    ensures !Yielding(next.isr) && !upd.SwitchOut? && !upd.SetContext? && !upd.SetCpuProc?
    ensures upd.SetState? ==> upd.i < |s.procs| && upd.st == RUNNABLE && s.procs[upd.i].state == SLEEPING
  {
    assert CpuOk(s, c);
  }

  lemma NotPlaced(s: State, c: nat, i: nat)
    requires CoreOk(s) && c < |s.cpus| && PLock(i) in Held(Active(s, c), Self(s, c)) && Place(s.cpus[c].ctx.base) == None
    requires i < |s.procs| && s.procs[i].state != RUNNING
    ensures !Placed(s, i)
  {
    hide Held;
    if Placed(s, i) {
      var d: nat :| d < |s.cpus| && Place(s.cpus[d].ctx.base) == Some(i);
      LockedElsewhere(s, c, d, i);
    }
  }

  // ----- all places -----

  lemma SelfPlaced(s: State, c: nat)
    requires c < |s.cpus| && Self(s, c) < |s.threads|
    ensures Placed(s, Self(s, c))
  {
    assert Place(s.cpus[c].ctx.base) == Some(Self(s, c));
  }

  /** How the place of the acting CPU changes. */
  ghost predicate PlaceMove(s: State, q: Option<nat>, upd: Upd, q': Option<nat>) {
    || (q' == q && !upd.SwitchOut? && !(upd.SetState? && upd.st == RUNNING))
    || (upd.SwitchOut? && q == Some(upd.i) && q' == None)
    || (upd.SetState? && upd.st == RUNNING && q == None && q' == Some(upd.i) && !Placed(s, upd.i))
  }

  lemma PlaceMoves(s: State, c: nat, act: Act, upd: Upd, next: Ctx, s': State)
    requires StepBy(s, c, act, upd, next, s') && CoreOk(s)
    ensures |s'.cpus| == |s.cpus| && |s'.threads| == |s'.procs| == |s.procs| == |s.threads| && s'.init == s.init
    ensures CpuOk(s', c) && PlaceMove(s, Place(s.cpus[c].ctx.base), upd, Place(s'.cpus[c].ctx.base))
    ensures forall d: nat | d < |s.cpus| && d != c :: s'.cpus[d] == s.cpus[d]
    ensures upd.SetState? && upd.st == RUNNING ==> Placed(s', upd.i)
  {
    hide Next;
    hide Held;
    Sizes(s, c, act, upd, next, s');
    assert CpuOk(s, c);
    if Self(s, c) < |s.threads| {
      assert ThreadOk(s, Self(s, c));
      ThreadCpu(s, c, act, upd, next, s');
      Granted(s, c, act, upd, next);
    } else {
      SchedCpu(s, c, act, upd, next, s');
    }
  }

  lemma UniqueStep(s: State, c: nat, act: Act, upd: Upd, next: Ctx, s': State)
    requires StepBy(s, c, act, upd, next, s') && CoreOk(s)
    ensures |s'.cpus| == |s.cpus|
    ensures forall a: nat, b: nat | a < |s'.cpus| && b < |s'.cpus| && Place(s'.cpus[a].ctx.base).Some?
          && Place(s'.cpus[a].ctx.base) == Place(s'.cpus[b].ctx.base) :: a == b
  {
    hide StepBy;
    hide LocksOk;
    hide NoffOk;
    hide SlotsOk;
    PlaceMoves(s, c, act, upd, next, s');
    Actor(s, c, act, upd, next, s');
  }

  lemma Actor(s: State, c: nat, act: Act, upd: Upd, next: Ctx, s': State)
    requires StepBy(s, c, act, upd, next, s')
    ensures c < |s.cpus|
  {
  }

  /** A thread that is off every CPU after the step. */
  lemma OffThread(s: State, c: nat, act: Act, upd: Upd, next: Ctx, s': State, t: nat)
    requires StepBy(s, c, act, upd, next, s') && CoreOk(s) && t < |s.threads|
    requires |s'.cpus| == |s.cpus| && |s'.threads| == |s'.procs| == |s.procs| && !Placed(s', t)
    ensures OffOk(s'.threads[t], s'.procs[t].state, t)
  {
    hide LocksOk;
    hide NoffOk;
    hide Next;
    hide Held;
    hide Resumable;
    hide Dead;
    PlaceMoves(s, c, act, upd, next, s');
    Granted(s, c, act, upd, next);
    var self := Self(s, c);
    assert CpuOk(s, c) && ThreadOk(s, t) && (self < |s.threads| ==> SlotOk(s, self));
    if Placed(s, t) {
      var d: nat :| d < |s.cpus| && Place(s.cpus[d].ctx.base) == Some(t);
      assert d == c;
      assert upd.SwitchOut? && upd.i == t;
      assert self == t;
      ThreadNext(s, c, act, upd, next);
    } else {
      if self < |s.threads| {
        SelfPlaced(s, c);
      }
      UnplacedMove(s, Active(s, c), self, t, upd);
    }
  }

  /** A change to the state of a process that no CPU executes. */
  lemma UnplacedMove(s: State, ctx: Ctx, self: nat, t: nat, upd: Upd)
    requires t < |s.procs| == |s.threads| && self != t && Grant(s, ctx, self, upd) && upd != SetState(t, RUNNING)
    requires OffOk(s.threads[t], s.procs[t].state, t)
    requires ctx.isr.Idle? && ctx.base.Fork? && ctx.base.fk.FkRun? && ctx.base.fk.i == t ==> s.threads[t] == Ctx(ForkRet, Idle)
    requires ctx == Ctx(Fork(FkContext(t)), Idle) ==> s.procs[t].state == USED
    ensures OffOk(if upd == SetContext(t) then Ctx(ForkRet, Idle) else s.threads[t], ProcsAfter(s.procs, upd)[t].state, t)
  {
  }

  lemma ThreadStep(s: State, c: nat, act: Act, upd: Upd, next: Ctx, s': State, t: nat)
    requires StepBy(s, c, act, upd, next, s') && CoreOk(s) && t < |s.threads|
    requires |s'.threads| == |s'.procs|
    ensures t < |s'.threads| && ThreadOk(s', t)
  {
    hide Next;
    hide Held;
    hide LocksOk;
    hide NoffOk;
    hide OffOk;
    hide LockFree;
    Sizes(s, c, act, upd, next, s');
    var self := Self(s, c);
    assert ThreadOk(s, t);
    if self < |s.threads| {
      ThreadNext(s, c, act, upd, next);
    }
    if !Placed(s', t) {
      OffThread(s, c, act, upd, next, s', t);
    }
    assert !Ctx(ForkRet, Idle).base.Sched?;
  }

  lemma PlaceStep(s: State, c: nat, act: Act, upd: Upd, next: Ctx, s': State)
    requires StepBy(s, c, act, upd, next, s') && CoreOk(s)
    ensures PlaceOk(s')
  {
    hide StepBy;
    hide CpuOk;
    hide ThreadOk;
    hide LocksOk;
    hide NoffOk;
    hide SlotsOk;
    PlaceMoves(s, c, act, upd, next, s');
    UniqueStep(s, c, act, upd, next, s');
    forall d: nat | d < |s'.cpus| ensures CpuOk(s', d) {
      if d != c {
        OtherCpu(s, c, act, upd, next, s', d);
      }
    }
    forall t: nat | t < |s'.threads| ensures ThreadOk(s', t) {
      ThreadStep(s, c, act, upd, next, s', t);
    }
  }
}
