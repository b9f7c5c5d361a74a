/** The process tree after a step. */
module TreeSteps {
  import opened ProcTypes
  import opened Machine
  import opened Locks
  import opened Invariant
  import opened CoreSteps
  import opened PlaceSteps
  import opened SlotSteps
  import opened Effects

  /** What the invariants say of the thread that CPU `c` executes, where its code is named. */
  lemma ActorFacts(s: State, c: nat)
    requires CoreOk(s) && TreeOk(s) && c < |s.cpus|
    ensures !Active(s, c).base.Sched? ==> Self(s, c) < |s.threads|
    ensures Self(s, c) < |s.threads| ==>
      && Active(s, c) == s.threads[Self(s, c)] && SlotOk(s, Self(s, c)) && TreeThread(s, Self(s, c))
      && s.procs[Self(s, c)].state == OnState(Active(s, c)) && LinkOk(s, Self(s, c))
  {
    hide SlotOk;
    hide TreeThread;
    hide LinkOk;
    assert CpuOk(s, c);
  }

  lemma LinkState(s: State, c: nat, upd: Upd, s': State, i: nat)
    requires CoreOk(s) && TreeOk(s) && Effect(s, upd, s') && c < |s.cpus| && Grant(s, Active(s, c), Self(s, c), upd)
    requires i < |s.procs| && upd.SetState?
    ensures LinkOk(s', i)
  {
    hide CoreOk;
    hide Held;
    ActorFacts(s, c);
    assert LinkOk(s, i);
    if s.procs[i].parent.Some? {
      assert LinkOk(s, s.procs[i].parent.value);
    }
  }

  lemma LinkPid(s: State, c: nat, upd: Upd, s': State, i: nat)
    requires CoreOk(s) && TreeOk(s) && Effect(s, upd, s') && c < |s.cpus| && Grant(s, Active(s, c), Self(s, c), upd)
    requires i < |s.procs| && upd.SetPid?
    ensures LinkOk(s', i)
  {
    hide CoreOk;
    hide Held;
    ActorFacts(s, c);
    assert LinkOk(s, i);
    if s.procs[i].parent.Some? {
      assert LinkOk(s, s.procs[i].parent.value);
    }
  }

  lemma LinkParent(s: State, c: nat, upd: Upd, s': State, i: nat)
    requires CoreOk(s) && TreeOk(s) && Effect(s, upd, s') && c < |s.cpus| && Grant(s, Active(s, c), Self(s, c), upd)
    requires i < |s.procs| && upd.SetParent?
    ensures LinkOk(s', i)
  {
    hide CoreOk;
    hide Held;
    ActorFacts(s, c);
    assert LinkOk(s, i);
    if s.procs[i].parent.Some? {
      assert LinkOk(s, s.procs[i].parent.value);
    }
  }

  lemma LinkStep(s: State, c: nat, upd: Upd, s': State, i: nat)
    requires CoreOk(s) && TreeOk(s) && Effect(s, upd, s') && c < |s.cpus| && Grant(s, Active(s, c), Self(s, c), upd)
    requires i < |s.procs|
    ensures LinkOk(s', i)
  {
    hide CoreOk;
    hide Grant;
    hide TreeThread;
    hide InitOk;
    if upd.SetState? {
      LinkState(s, c, upd, s', i);
    } else if upd.SetPid? {
      LinkPid(s, c, upd, s', i);
    } else if upd.SetParent? {
      LinkParent(s, c, upd, s', i);
    } else {
      assert LinkOk(s, i);
    }
  }

  lemma InitStep(s: State, c: nat, upd: Upd, s': State)
    requires CoreOk(s) && TreeOk(s) && Effect(s, upd, s') && c < |s.cpus| && Grant(s, Active(s, c), Self(s, c), upd)
    ensures InitOk(s')
  {
    hide CoreOk;
    hide Held;
    ActorFacts(s, c);
  }

  // ----- threads that stay where they are -----

  lemma ForkStays(s: State, c: nat, upd: Upd, s': State, t: nat)
    requires CoreOk(s) && TreeOk(s) && Effect(s, upd, s') && Stays(s, c, upd, t) && s.threads[t].base.Fork?
    ensures ForkLink(s', t, s.threads[t].base.fk)
  {
    hide LocksOk;
    hide NoffOk;
    hide PlaceOk;
    hide Held;
    hide SlotOk;
    hide LinkOk;
    hide Grant;
    var q := s.threads[t].base.fk;
    assert TreeThread(s, t);
    if upd.SetPid? {
      ForkPidStays(s, c, upd, t);
    } else if upd.SetParent? {
      ForkParentStays(s, c, upd, t);
    }
  }

  /** No pid that the fork of thread `t` relies on changes under it. */
  lemma ForkPidStays(s: State, c: nat, upd: Upd, t: nat)
    requires CoreOk(s) && TreeOk(s) && Stays(s, c, upd, t) && s.threads[t].base.Fork? && upd.SetPid?
    ensures ForkLink(s.(procs := ProcsAfter(s.procs, upd)), t, s.threads[t].base.fk)
  {
    hide LocksOk;
    hide NoffOk;
    hide PlaceOk;
    hide Held;
    ActorFacts(s, c);
    Busy(s, t);
    var q := s.threads[t].base.fk;
    assert SlotOk(s, t) && TreeThread(s, t);
    if EarlySlot(Fork(q)) == Some(upd.i) {
      EarlyHolds(Fork(q), t, upd.i);
      SetPidLock(s, c, upd);
      OneHolder(s, c, t, PLock(upd.i));
    }
  }

  /** Nor a parent link. */
  lemma ForkParentStays(s: State, c: nat, upd: Upd, t: nat)
    requires CoreOk(s) && TreeOk(s) && Stays(s, c, upd, t) && s.threads[t].base.Fork? && upd.SetParent?
    ensures ForkLink(s.(procs := ProcsAfter(s.procs, upd)), t, s.threads[t].base.fk)
  {
    hide LocksOk;
    hide NoffOk;
    hide PlaceOk;
    hide Held;
    hide LinkOk;
    ActorFacts(s, c);
    assert SlotOk(s, t) && TreeThread(s, t);
  }

  /** A slot whose pid changes is locked. */
  lemma SetPidLock(s: State, c: nat, upd: Upd)
    requires c < |s.cpus| && Grant(s, Active(s, c), Self(s, c), upd) && upd.SetPid?
    ensures PLock(upd.i) in Held(Active(s, c), Self(s, c))
  {
  }

  lemma WaitStays(s: State, c: nat, upd: Upd, s': State, t: nat)
    requires CoreOk(s) && TreeOk(s) && Effect(s, upd, s') && Stays(s, c, upd, t) && s.threads[t].base.Wait?
    requires s'.threads[t].base == s.threads[t].base
    ensures TreeThread(s', t)
  {
    hide LocksOk;
    hide NoffOk;
    hide PlaceOk;
    hide Held;
    ActorFacts(s, c);
    var q := s.threads[t].base.wt;
    assert SlotOk(s, t) && TreeThread(s, t);
  }

  lemma ExitStays(s: State, c: nat, upd: Upd, s': State, t: nat)
    requires CoreOk(s) && TreeOk(s) && Effect(s, upd, s') && Stays(s, c, upd, t) && s.threads[t].base.Exit?
    requires s'.threads[t].base == s.threads[t].base
    ensures TreeThread(s', t)
  {
    hide CoreOk;
    hide Held;
    ActorFacts(s, c);
    assert TreeThread(s, t);
  }

  lemma TreeStays(s: State, c: nat, upd: Upd, s': State, t: nat)
    requires CoreOk(s) && TreeOk(s) && Effect(s, upd, s') && Stays(s, c, upd, t) && s'.threads[t].base == s.threads[t].base
    ensures TreeThread(s', t)
  {
    hide CoreOk;
    hide Effect;
    hide Grant;
    hide LinkOk;
    hide ForkLink;
    if s.threads[t].base.Fork? {
      ForkStays(s, c, upd, s', t);
    } else if s.threads[t].base.Wait? {
      WaitStays(s, c, upd, s', t);
    } else if s.threads[t].base.Exit? {
      ExitStays(s, c, upd, s', t);
    }
  }

  // ----- the thread that moves -----

  lemma ForkLinkStep(s: State, s': State, self: nat, q: ForkPc, act: Act, upd: Upd, pc': Pc)
    requires self < |s.procs| && ForkStep(s, self, q, act, upd, pc') && !q.FkUndo? && Effect(s, upd, s')
    requires ForkLink(s, self, q) && s.procs[self].pid < s.nextpid
    requires EarlySlot(Fork(q)).Some? ==> q.i < |s.procs| && q.i != self && s.procs[q.i].parent == None
    requires Slot(Fork(q)).Some? ==> q.i < |s.procs| && q.i != self
    ensures pc'.Fork? ==> ForkLink(s', self, pc'.fk)
  {
  }

  lemma UndoLinkStep(s: State, s': State, self: nat, q: ForkPc, act: Act, upd: Upd, pc': Pc)
    requires self < |s.procs| && ForkStep(s, self, q, act, upd, pc') && q.FkUndo? && Effect(s, upd, s')
    requires ForkLink(s, self, q) && q.i < |s.procs| && q.i != self
    ensures pc'.Fork? ==> ForkLink(s', self, pc'.fk)
  {
  }

  lemma ForkGoes(s: State, self: nat, q: ForkPc, act: Act, upd: Upd, pc': Pc)
    requires ForkStep(s, self, q, act, upd, pc')
    ensures pc' == User || pc'.Fork?
  {
    hide FreeStep;
  }

  lemma ForkMoves(s: State, c: nat, act: Act, upd: Upd, pc': Pc, s': State)
    requires c < |s.cpus| && Self(s, c) < |s.threads| == |s.procs| == |s'.threads| == |s'.procs|
    requires CoreOk(s) && PidsOk(s) && TreeOk(s) && Effect(s, upd, s') && Moves(s, c, act, upd, pc')
    requires s.threads[Self(s, c)].base.Fork? && s'.threads[Self(s, c)].base == pc'
    ensures TreeThread(s', Self(s, c))
  {
    hide LocksOk;
    hide NoffOk;
    hide PlaceOk;
    hide ForkStep;
    hide ForkLink;
    hide PidOk;
    ActorFacts(s, c);
    var self, q := Self(s, c), s.threads[Self(s, c)].base.fk;
    Busy(s, self);
    assert TreeThread(s, self) && SlotOk(s, self);
    if EarlySlot(Fork(q)).Some? {
      assert LinkOk(s, q.i);
    }
    ForkGoes(s, self, q, act, upd, pc');
    if q.FkUndo? {
      UndoLinkStep(s, s', self, q, act, upd, pc');
    } else {
      ForkLinkStep(s, s', self, q, act, upd, pc');
    }
  }

  lemma WaitLink(s: State, s': State, self: nat, q: WaitPc, act: Act, upd: Upd, pc': Pc)
    requires self < |s.threads| == |s.procs| && s.threads[self].base == Wait(q) && TreeThread(s, self)
    requires WaitStep(s, self, q, act, upd, pc') && Effect(s, upd, s') && s'.threads[self].base == pc'
    ensures TreeThread(s', self)
  {
    hide KilledStep;
    hide ForkLink;
    hide NoKids;
    WaitGoes(s, self, q, act, upd, pc');
  }

  lemma WaitMoves(s: State, c: nat, act: Act, upd: Upd, pc': Pc, s': State)
    requires c < |s.cpus| && Self(s, c) < |s.threads| == |s.procs| == |s'.threads| == |s'.procs|
    requires CoreOk(s) && TreeOk(s) && Effect(s, upd, s') && Moves(s, c, act, upd, pc')
    requires s.threads[Self(s, c)].base.Wait? && s'.threads[Self(s, c)].base == pc'
    ensures TreeThread(s', Self(s, c))
  {
    hide CoreOk;
    hide WaitStep;
    hide LinkOk;
    hide TreeThread;
    WaitLink(s, s', Self(s, c), s.threads[Self(s, c)].base.wt, act, upd, pc');
  }

  lemma WaitGoes(s: State, self: nat, q: WaitPc, act: Act, upd: Upd, pc': Pc)
    requires self < |s.procs| && WaitStep(s, self, q, act, upd, pc')
    ensures !pc'.Fork? && !pc'.Exit?
  {
    hide KilledStep;
    hide FreeStep;
  }

  lemma ExitMoves(s: State, c: nat, act: Act, upd: Upd, pc': Pc, s': State)
    requires c < |s.cpus| && Self(s, c) < |s.threads| == |s.procs| == |s'.threads| == |s'.procs|
    requires CoreOk(s) && TreeOk(s) && Effect(s, upd, s') && Moves(s, c, act, upd, pc')
    requires s.threads[Self(s, c)].base.Exit? && s'.threads[Self(s, c)].base == pc'
    ensures TreeThread(s', Self(s, c))
  {
    hide CoreOk;
    var self, q := Self(s, c), s.threads[Self(s, c)].base.ex;
    assert TreeThread(s, self);
    hide TreeOk;
    ExitGoes(s, c, self, q, s.threads[self].base.status, act, upd, pc');
  }

  /** Only the reparent scan of exit changes a parent. */
  lemma ExitGoes(s: State, c: nat, self: nat, q: ExitPc, st: int, act: Act, upd: Upd, pc': Pc)
    requires c < |s.cpus| && self < |s.procs| && ExitStep(s, c, self, q, st, act, upd, pc')
    ensures pc'.Exit? && pc'.status == st
    ensures upd.SetParent? ==> q.ExScan? && upd == SetParent(q.j, Some(s.init)) && pc'.ex == ExInit(q.j, WkAt(0))
    ensures !upd.SetParent? ==>
      || KidsBound(pc'.ex, |s.procs|) == KidsBound(q, |s.procs|)
      || (q.ExLock? && pc'.ex == ExScan(0))
      || (q.ExScan? && q.j < |s.procs| && s.procs[q.j].parent != Some(self) && pc'.ex == ExScan(q.j + 1))
      || (q.ExScan? && q.j >= |s.procs|)
  {
  }

  lemma OtherMoves(s: State, c: nat, act: Act, upd: Upd, pc': Pc, s': State)
    requires c < |s.cpus| && Self(s, c) < |s.threads| == |s.procs| == |s'.threads| == |s'.procs|
    requires CoreOk(s) && TreeOk(s) && Effect(s, upd, s') && Moves(s, c, act, upd, pc')
    requires var pc := s.threads[Self(s, c)].base; !pc.Fork? && !pc.Wait? && !pc.Exit?
    requires s'.threads[Self(s, c)].base == pc'
    ensures TreeThread(s', Self(s, c))
  {
    hide CoreOk;
    hide TreeOk;
    OtherGoes(s, c, Self(s, c), s.threads[Self(s, c)].base, act, upd, pc');
  }

  lemma OtherGoes(s: State, c: nat, self: nat, pc: Pc, act: Act, upd: Upd, pc': Pc)
    requires c < |s.cpus| && BaseStep(s, c, self, pc, act, upd, pc') && !pc.Fork? && !pc.Wait? && !pc.Exit?
    ensures pc'.Fork? ==> pc' == Fork(FkAt(0))
    ensures pc'.Exit? ==> pc'.ex == ExLock && self != s.init
    ensures pc'.Wait? ==> pc'.wt == WtLock || pc'.wt == WtAt(0, false)
  {
    hide Elapsed;
  }

  lemma TreeMoves(s: State, c: nat, act: Act, upd: Upd, pc': Pc, s': State)
    requires c < |s.cpus| && Self(s, c) < |s.threads| == |s.procs| == |s'.threads| == |s'.procs|
    requires CoreOk(s) && PidsOk(s) && TreeOk(s) && Effect(s, upd, s') && Moves(s, c, act, upd, pc')
    requires s'.threads[Self(s, c)].base == pc'
    ensures TreeThread(s', Self(s, c))
  {
    hide CoreOk;
    hide PidsOk;
    hide BaseStep;
    hide LinkOk;
    hide ForkLink;
    hide NoKids;
    var pc := s.threads[Self(s, c)].base;
    if pc.Fork? {
      ForkMoves(s, c, act, upd, pc', s');
    } else if pc.Wait? {
      WaitMoves(s, c, act, upd, pc', s');
    } else if pc.Exit? {
      ExitMoves(s, c, act, upd, pc', s');
    } else {
      OtherMoves(s, c, act, upd, pc', s');
    }
  }

  lemma TreeStep(s: State, c: nat, act: Act, upd: Upd, next: Ctx, s': State)
    requires StepBy(s, c, act, upd, next, s') && CoreOk(s) && PidsOk(s) && TreeOk(s)
    ensures |s'.threads| == |s'.procs| && TreeOk(s')
  {
    hide StepBy;
    hide CoreOk;
    hide PidsOk;
    hide LinkOk;
    hide TreeThread;
    hide InitOk;
    hide Grant;
    hide Moves;
    Linked(s, c, act, upd, next, s');
    Sizes(s, c, act, upd, next, s');
    InitStep(s, c, upd, s');
    forall i: nat | i < |s'.procs| ensures LinkOk(s', i) {
      LinkStep(s, c, upd, s', i);
    }
    forall t: nat | t < |s'.threads| ensures TreeThread(s', t) {
      Cases(s, c, act, upd, next, s', t);
      if s'.threads[t].base == s.threads[t].base && Stays(s, c, upd, t) {
        TreeStays(s, c, upd, s', t);
      } else if t == Self(s, c) && Moves(s, c, act, upd, next.base) && s'.threads[t] == next {
        TreeMoves(s, c, act, upd, next.base, s');
      } else {
        ForkRetTree(s', t);
      }
    }
  }

  lemma ForkRetTree(s: State, t: nat)
    requires t < |s.threads| == |s.procs| && s.threads[t].base == ForkRet
    ensures TreeThread(s, t)
  {
  }

  // ----- zombies without a pid -----

  /** wait, while it frees a slot, is on a CPU; fork does not touch it. */
  lemma ReaperStays(s: State, c: nat, act: Act, upd: Upd, next: Ctx, s': State, t: nat, i: nat)
    requires StepBy(s, c, act, upd, next, s') && CoreOk(s) && TreeOk(s) && t < |s.threads| && i < |s.procs| && Reaps(s.threads[t].base, i)
    ensures t < |s'.threads| && i < |s'.procs| && (Reaps(s'.threads[t].base, i) || s'.procs[i].state == UNUSED)
  {
    hide StepBy;
    hide CoreOk;
    hide TreeOk;
    hide BaseStep;
    hide Grant;
    Cases(s, c, act, upd, next, s', t);
    if t == Self(s, c) && Moves(s, c, act, upd, next.base) && s'.threads[t] == next {
      ReaperMoves(s, t, i, s.threads[t].base.wt, act, upd, next.base, c);
    } else if upd == SetContext(t) {
      ContextSlot(s, c, upd);
      OnCpuState(s, t);
    }
  }

  lemma ReaperMoves(s: State, self: nat, i: nat, q: WaitPc, act: Act, upd: Upd, pc': Pc, c: nat)
    requires c < |s.cpus| && self < |s.procs| && BaseStep(s, c, self, Wait(q), act, upd, pc') && Reaps(Wait(q), i)
    ensures Reaps(pc', i) || upd == SetState(i, UNUSED)
  {
  }

  lemma ContextSlot(s: State, c: nat, upd: Upd)
    requires CoreOk(s) && c < |s.cpus| && upd.SetContext? && Grant(s, Active(s, c), Self(s, c), upd)
    ensures upd.i < |s.procs| && s.procs[upd.i].state == USED
  {
    hide LocksOk;
    hide NoffOk;
    hide Held;
    assert CpuOk(s, c);
    assert SlotOk(s, Self(s, c));
  }

  lemma OnCpuState(s: State, t: nat)
    requires CoreOk(s) && t < |s.threads| && s.threads[t].base.Wait?
    ensures t < |s.procs| && s.procs[t].state != USED
  {
    hide LocksOk;
    hide NoffOk;
    hide SlotsOk;
    Busy(s, t);
  }

  lemma ZombieStep(s: State, c: nat, act: Act, upd: Upd, next: Ctx, s': State, i: nat)
    requires StepBy(s, c, act, upd, next, s') && CoreOk(s) && TreeOk(s) && ZombiesOk(s) && i < |s.procs| == |s'.procs|
    ensures ZombieOk(s', i)
  {
    hide StepBy;
    hide CoreOk;
    hide TreeThread;
    hide BaseStep;
    hide Held;
    hide Reaps;
    assert ZombieOk(s, i) && LinkOk(s, i);
    Linked(s, c, act, upd, next, s');
    ActorFacts(s, c);
    if Reaped(s, i) {
      var t: nat :| t < |s.threads| && Reaps(s.threads[t].base, i);
      ReaperStays(s, c, act, upd, next, s', t, i);
    } else if upd == SetPid(i, 0) {
      PidZeroed(s, c, act, upd, next, s', i);
    }
  }

  lemma PidZeroed(s: State, c: nat, act: Act, upd: Upd, next: Ctx, s': State, i: nat)
    requires StepBy(s, c, act, upd, next, s') && CoreOk(s) && TreeOk(s) && upd == SetPid(i, 0) && i < |s.procs| == |s'.procs|
    ensures s'.procs[i].state == ZOMBIE ==> Reaped(s', i)
  {
    hide StepBy;
    hide CoreOk;
    hide TreeOk;
    Linked(s, c, act, upd, next, s');
    ActorFacts(s, c);
    if Active(s, c).isr.Idle? && Active(s, c).base.Wait? {
      Cases(s, c, act, upd, next, s', Self(s, c));
      CpuThread(s, c, act, upd, next, s');
      assert Reaps(s'.threads[Self(s, c)].base, i);
    }
  }

  lemma CpuThread(s: State, c: nat, act: Act, upd: Upd, next: Ctx, s': State)
    requires StepBy(s, c, act, upd, next, s') && CoreOk(s) && Self(s, c) < |s.threads|
    ensures |s'.threads| == |s.threads| && s'.threads[Self(s, c)] == next
  {
    hide StepBy;
    hide CoreOk;
    ThreadCpu(s, c, act, upd, next, s');
    Sizes(s, c, act, upd, next, s');
  }

  lemma ZombiesStep(s: State, c: nat, act: Act, upd: Upd, next: Ctx, s': State)
    requires StepBy(s, c, act, upd, next, s') && CoreOk(s) && TreeOk(s) && ZombiesOk(s)
    ensures ZombiesOk(s')
  {
    hide StepBy;
    hide CoreOk;
    hide TreeOk;
    hide ZombieOk;
    Sizes(s, c, act, upd, next, s');
    forall i: nat | i < |s'.procs| ensures ZombieOk(s', i) {
      ZombieStep(s, c, act, upd, next, s', i);
    }
  }
}
