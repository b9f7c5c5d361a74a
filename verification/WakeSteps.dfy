/** Wakeups are not lost: exit against wait, and clockintr against sys_sleep. */
module WakeSteps {
  import opened ProcTypes
  import opened Machine
  import opened Locks
  import opened Invariant
  import opened CoreSteps
  import opened PlaceSteps
  import opened SlotSteps
  import opened Effects
  import opened TreeSteps
  import opened SleepSteps
  import opened WaitSteps

  /** A wakeup loop that tests a sleeper of its channel finds it switched out and makes it RUNNABLE. */
  lemma TestWakes(s: State, c: nat, ch: Chan, w: Wake, act: Act, upd: Upd, w': Wake, t: nat)
    requires CoreOk(s) && ChansOk(s) && c < |s.cpus| && t < |s.threads| && Self(s, c) != t
    requires WakeStep(s, c, ch, w, act, upd, w') && w == WkTest(t) && PLock(t) in Held(Active(s, c), Self(s, c))
    requires Asleep(s, t) && ChanOf(s.threads[t].base.why, t) == ch
    ensures upd == SetState(t, RUNNABLE) && s.threads[t].base.sl.SlResume?
  {
    SizesOk(s);
    hide LocksOk;
    hide NoffOk;
    hide PlaceOk;
    hide SlotsOk;
    hide Held;
    assert ChanThread(s, t);
    if !s.threads[t].base.sl.SlResume? {
      OneHolder(s, c, t, PLock(t));
    }
  }

  /** A wakeup loop keeps slot `t` ahead of it until it tests the slot, unless `t` is its own process. */
  lemma WakeAdvances(s: State, c: nat, ch: Chan, w: Wake, act: Act, upd: Upd, w': Wake, t: nat)
    requires c < |s.cpus| && WakeStep(s, c, ch, w, act, upd, w') && Pending(w, t) && s.cpus[c].proc != Some(t)
    ensures Pending(w', t) || w == WkTest(t)
  {
  }

  /** Whoever is woken is no longer asleep. */
  lemma WokenUp(s: State, s': State, upd: Upd, t: nat)
    requires Effect(s, upd, s') && t < |s.threads| && upd == SetState(t, RUNNABLE)
    requires s'.threads[t].base == s.threads[t].base && s.threads[t].base.Sleep? && s.threads[t].base.sl.SlResume?
    ensures !Asleep(s', t)
  {
  }

  lemma OwnProc(s: State, c: nat)
    requires PlaceOk(s) && c < |s.cpus|
    ensures Self(s, c) < |s.threads| ==> s.cpus[c].proc == Some(Self(s, c))
    ensures Self(s, c) >= |s.threads| && s.cpus[c].ctx.isr != Idle ==> s.cpus[c].proc == None
  {
    assert CpuOk(s, c);
  }

  // ----- init is woken for the children it is given -----

  /** The thread that gives children to init, as it advances past a sleeping init. */
  lemma InitWaker(s: State, c: nat, act: Act, upd: Upd, pc': Pc, s': State)
    requires CoreOk(s) && TreeOk(s) && ChansOk(s) && Effect(s, upd, s') && Moves(s, c, act, upd, pc')
    requires s'.threads[Self(s, c)].base == pc' && WakesInit(s, Self(s, c)) && AsleepInWait(s, s.init)
    requires s.init != Self(s, c) ==> s'.threads[s.init].base == s.threads[s.init].base
    ensures WakesInit(s', Self(s, c)) || !Asleep(s', s.init)
  {
    hide LocksOk;
    hide NoffOk;
    hide SlotsOk;
    hide ChansOk;
    hide WakeStep;
    hide PlaceOk;
    var self, q := Self(s, c), s.threads[Self(s, c)].base.ex;
    assert TreeThread(s, self);
    hide TreeOk;
    OwnProc(s, c);
    if pc'.Exit? && pc'.ex.ExInit? && WakeStep(s, c, OnProc(s.init), q.w, act, upd, pc'.ex.w) {
      WakeAdvances(s, c, OnProc(s.init), q.w, act, upd, pc'.ex.w, s.init);
      if q.w == WkTest(s.init) {
        TestWakes(s, c, OnProc(s.init), q.w, act, upd, pc'.ex.w, s.init);
        WokenUp(s, s', upd, s.init);
      }
    }
  }

  lemma UnlkNoKid(s: State, t: nat, i: nat)
    requires t < |s.threads| == |s.procs| && i < |s.procs| && WaitsOk(s)
    ensures s.threads[t].base.Sleep? && s.threads[t].base.why.InWait? && s.threads[t].base.sl.SlUnlk? ==> !IsZombieKid(s, t, i)
  {
    assert WaitThread(s, t);
  }

  /** exit is at slot `i` in its scan for children. */
  predicate AtScan(ctx: Ctx, i: nat) {
    ctx.isr.Idle? && ctx.base.Exit? && ctx.base.ex == ExScan(i)
  }

  /** Where a pair of sleeping parent and zombie child comes from. */
  lemma PairBefore(s: State, c: nat, act: Act, upd: Upd, next: Ctx, s': State, t: nat, i: nat)
    requires StepBy(s, c, act, upd, next, s') && Inv(s) && t < |s.threads| == |s.procs| && i < |s.procs|
    requires |s'.threads| == |s'.procs| == |s.threads| && AsleepInWait(s', t) && IsZombieKid(s', t, i)
    ensures AsleepInWait(s, t) && c < |s.cpus|
    ensures IsZombieKid(s, t, i) || (t == s.init && upd == SetParent(i, Some(s.init)) && AtScan(Active(s, c), i))
  {
    hide StepBy;
    hide CoreOk;
    hide PidsOk;
    hide TicksOk;
    hide ZombiesOk;
    hide LinkOk;
    hide TreeThread;
    hide Held;
    Linked(s, c, act, upd, next, s');
    ChanStep(s, c, act, upd, next, s', t);
    UnlkNoKid(s, t, i);
    if Asleep(s, t) && !IsZombieKid(s, t, i) {
      ActorFacts(s, c);
      if upd == SetState(i, ZOMBIE) {
        assert ParentAwake(s, i);
      }
    }
  }

  /** exit, while it wakes init, is on a CPU; fork does not touch it. */
  lemma WakerStays(s: State, c: nat, act: Act, upd: Upd, next: Ctx, s': State, e: nat)
    requires StepBy(s, c, act, upd, next, s') && CoreOk(s) && e < |s.threads| && WakesInit(s, e)
    requires !(e == Self(s, c) && Moves(s, c, act, upd, next.base))
    ensures e < |s'.threads| && WakesInit(s', e)
  {
    hide StepBy;
    hide BaseStep;
    hide NoffOk;
    Cases(s, c, act, upd, next, s', e);
    if upd == SetContext(e) {
      var d := OnCpu(s, e);
      Acting(s, d);
      OnStates(s.threads[e]);
      ContextSlot(s, c, upd);
    }
  }

  lemma NotMissedStep(s: State, c: nat, act: Act, upd: Upd, next: Ctx, s': State, t: nat, i: nat)
    requires StepBy(s, c, act, upd, next, s') && Inv(s) && t < |s.threads| == |s.procs| && i < |s.procs|
    requires |s'.threads| == |s'.procs| == |s.threads|
    ensures NotMissed(s', t, i)
  {
    hide StepBy;
    hide CoreOk;
    hide PidsOk;
    hide TreeOk;
    hide TicksOk;
    hide ZombiesOk;
    hide ChansOk;
    hide WaitsOk;
    hide Asleep;
    hide WakesInit;
    hide BaseStep;
    hide Grant;
    if AsleepInWait(s', t) && IsZombieKid(s', t, i) {
      PairBefore(s, c, act, upd, next, s', t, i);
      Sizes(s, c, act, upd, next, s');
      var self := Self(s, c);
      if IsZombieKid(s, t, i) {
        assert NotMissed(s, t, i);
        var e: nat :| e < |s.threads| && WakesInit(s, e);
        if e == self && Moves(s, c, act, upd, next.base) {
          Cases(s, c, act, upd, next, s', e);
          Cases(s, c, act, upd, next, s', t);
          InitStays(s, c, act, upd, next, s');
          InitWaker(s, c, act, upd, next.base, s');
        } else {
          WakerStays(s, c, act, upd, next, s', e);
        }
      } else {
        ScanWakes(s, c, act, upd, next, s', i);
      }
    }
  }

  /** init, still asleep after a step of another thread, has not moved. */
  lemma InitStays(s: State, c: nat, act: Act, upd: Upd, next: Ctx, s': State)
    requires StepBy(s, c, act, upd, next, s') && CoreOk(s) && |s'.threads| == |s'.procs| == |s.threads| && Asleep(s', s.init)
    ensures s.init < |s.threads| && (s.init != Self(s, c) ==> s'.threads[s.init].base == s.threads[s.init].base)
    ensures Self(s, c) < |s.threads| && Moves(s, c, act, upd, next.base) ==> s'.threads[Self(s, c)].base == next.base
  {
    hide StepBy;
    hide BaseStep;
    hide Grant;
    hide LocksOk;
    hide NoffOk;
    Cases(s, c, act, upd, next, s', s.init);
    if Self(s, c) < |s.threads| {
      ThreadCpu(s, c, act, upd, next, s');
    }
  }

  lemma ScanWakes(s: State, c: nat, act: Act, upd: Upd, next: Ctx, s': State, i: nat)
    requires StepBy(s, c, act, upd, next, s') && CoreOk(s) && upd.SetParent? && AtScan(Active(s, c), i)
    ensures Self(s, c) < |s'.threads| && WakesInit(s', Self(s, c))
  {
  }

  // ----- the parent is woken before its child is a zombie -----

  /** The points of exit that read or rely on p->parent. */
  predicate Notifies(pc: Pc) {
    pc.Exit? && (pc.ex.ExParent? || pc.ex.ExSelf? || pc.ex.ExStatus? || pc.ex.ExZombie?)
  }

  lemma NotifierHolds(s: State, e: nat)
    requires CoreOk(s) && e < |s.threads| && Notifies(s.threads[e].base)
    ensures WaitLock in HeldPc(s.threads[e].base, e) && s.threads[e].isr == Idle && s.procs[e].state == RUNNING
  {
    hide LocksOk;
    hide NoffOk;
    hide SlotsOk;
    var d := OnCpu(s, e);
    Acting(s, d);
  }

  /** A thread falls asleep in wait by releasing wait_lock. */
  lemma UnlkHolds(ctx: Ctx, t: nat)
    requires ctx.isr == Idle && ctx.base.Sleep? && ctx.base.why.InWait? && ctx.base.sl == SlUnlk
    ensures WaitLock in Held(ctx, t)
  {
  }

  /** The parent of a process in exit changes only by its own hand while it holds wait_lock. */
  lemma ParentKept(s: State, c: nat, upd: Upd, s': State, e: nat)
    requires CoreOk(s) && Effect(s, upd, s') && Stays(s, c, upd, e) && Notifies(s.threads[e].base)
    ensures s'.procs[e].parent == s.procs[e].parent
  {
    hide LocksOk;
    hide NoffOk;
    hide PlaceOk;
    hide Held;
    NotifierHolds(s, e);
    if upd.SetParent? && upd.i == e {
      if upd.q.Some? {
        FamilyLock(s, c, upd);
        OneHolder(s, c, e, WaitLock);
      } else {
        FreedState(s, c, e, FrParent);
      }
    }
  }

  /** freeproc works on a zombie, or on a slot that fork gives up. */
  lemma FreedState(s: State, c: nat, i: nat, f: Free)
    requires CoreOk(s) && c < |s.cpus| && FreeingAt(Active(s, c), i, f)
    ensures i < |s.procs| && (s.procs[i].state == ZOMBIE || s.procs[i].state == USED)
  {
    hide LocksOk;
    hide NoffOk;
    assert CpuOk(s, c);
    assert SlotOk(s, Self(s, c));
  }

  /** Nobody falls asleep in wait while a process in exit holds wait_lock. */
  lemma NoneFallsAsleep(s: State, c: nat, act: Act, upd: Upd, next: Ctx, s': State, e: nat, t: nat)
    requires StepBy(s, c, act, upd, next, s') && CoreOk(s) && TreeOk(s) && ChansOk(s) && e < |s.threads| && t < |s.threads|
    requires Notifies(s.threads[e].base)
    requires |s'.threads| == |s'.procs| == |s.threads| && AsleepInWait(s', t)
    ensures AsleepInWait(s, t)
  {
    hide StepBy;
    hide CoreOk;
    hide TreeOk;
    hide ChansOk;
    hide Held;
    Actor(s, c, act, upd, next, s');
    SizesOk(s);
    ChanStep(s, c, act, upd, next, s', t);
    NotifierHolds(s, e);
    if !Asleep(s, t) {
      UnlkHolds(s.threads[t], t);
      NotifierAlone(s, c, e);
    }
  }

  lemma NotifierAlone(s: State, c: nat, e: nat)
    requires CoreOk(s) && c < |s.cpus| && e < |s.threads| && Notifies(s.threads[e].base)
    requires WaitLock in Held(Active(s, c), Self(s, c))
    ensures Self(s, c) == e
  {
    hide Held;
    hide LocksOk;
    hide PlaceOk;
    NotifierHolds(s, e);
    OneHolder(s, c, e, WaitLock);
  }

  lemma ParentStays(s: State, c: nat, act: Act, upd: Upd, next: Ctx, s': State, e: nat)
    requires StepBy(s, c, act, upd, next, s') && CoreOk(s) && TreeOk(s) && ChansOk(s) && WakesOk(s) && e < |s.threads| == |s.procs|
    requires |s'.threads| == |s'.procs| == |s.threads|
    requires s'.threads[e].base == s.threads[e].base && Stays(s, c, upd, e) && Effect(s, upd, s')
    ensures ParentAwake(s', e)
  {
    hide StepBy;
    hide CoreOk;
    hide TreeOk;
    hide ChansOk;
    hide Stays;
    hide AsleepInWait;
    var pc, q := s.threads[e].base, s.procs[e].parent;
    assert ParentAwake(s, e);
    if Notifies(pc) {
      ParentKept(s, c, upd, s', e);
      if q.Some? && q.value < |s.threads| && AsleepInWait(s', q.value) {
        NoneFallsAsleep(s, c, act, upd, next, s', e, q.value);
      }
    }
  }

  /** A process is not its own parent. */
  lemma NotOwnParent(s: State, e: nat)
    requires e < |s.threads| == |s.procs| && TreeOk(s) && Alive(s.procs[e].state)
    ensures s.procs[e].parent != Some(e)
  {
    assert LinkOk(s, e);
  }

  /** exit, as it advances: the loop of wakeup(p->parent) leaves a sleeping parent RUNNABLE. */
  lemma ParentMoves(s: State, c: nat, act: Act, upd: Upd, next: Ctx, s': State)
    requires StepBy(s, c, act, upd, next, s') && CoreOk(s) && TreeOk(s) && ChansOk(s) && WakesOk(s) && |s.threads| == |s.procs|
    requires |s'.threads| == |s'.procs| == |s.threads| && Effect(s, upd, s')
    requires Moves(s, c, act, upd, next.base) && s'.threads[Self(s, c)] == next
    ensures ParentAwake(s', Self(s, c))
  {
    hide StepBy;
    hide CoreOk;
    hide TreeOk;
    hide ChansOk;
    hide BaseStep;
    hide AsleepInWait;
    var e, pc := Self(s, c), s.threads[Self(s, c)].base;
    assert ParentAwake(s, e);
    if Notifies(next.base) {
      EnterNotify(s, c, e, pc, act, upd, next.base);
      var q := s'.procs[e].parent;
      if Notifies(pc) && q.Some? && q.value < |s.threads| && AsleepInWait(s', q.value) {
        NoneFallsAsleep(s, c, act, upd, next, s', e, q.value);
        if Passed(next.base, q.value) && !Passed(pc, q.value) {
          ParentWaker(s, c, act, upd, next, s', q.value);
        }
      }
    }
  }

  /** How exit gets to the points that rely on p->parent. */
  lemma EnterNotify(s: State, c: nat, e: nat, pc: Pc, act: Act, upd: Upd, pc': Pc)
    requires c < |s.cpus| && e < |s.procs| && BaseStep(s, c, e, pc, act, upd, pc') && Notifies(pc')
    ensures pc.Exit? && !upd.SetParent?
    ensures !Notifies(pc) ==> pc.ex.ExScan? && pc'.ex == ExParent(s.procs[e].parent, WkAt(0))
    ensures pc'.ex.ExParent? && Notifies(pc) ==> pc.ex.ExParent? && pc'.ex.q == pc.ex.q
  {
    hide Elapsed;
  }

  lemma ParentWaker(s: State, c: nat, act: Act, upd: Upd, next: Ctx, s': State, t: nat)
    requires StepBy(s, c, act, upd, next, s') && CoreOk(s) && TreeOk(s) && ChansOk(s) && |s.threads| == |s.procs|
    requires |s'.threads| == |s'.procs| == |s.threads| && Effect(s, upd, s') && t < |s.threads|
    requires Moves(s, c, act, upd, next.base) && s'.threads[Self(s, c)] == next
    requires var pc := s.threads[Self(s, c)].base;
      && pc.Exit? && pc.ex.ExParent? && pc.ex.q == Some(t) && s.procs[Self(s, c)].parent == Some(t)
      && Pending(pc.ex.w, t) && Passed(next.base, t)
    requires AsleepInWait(s, t)
    ensures !AsleepInWait(s', t)
  {
    hide StepBy;
    hide CoreOk;
    hide TreeOk;
    hide ChansOk;
    hide WakeStep;
    var e, q := Self(s, c), s.threads[Self(s, c)].base.ex;
    OwnParent(s, c);
    Cases(s, c, act, upd, next, s', t);
    if next.base.Exit? && next.base.ex.ExParent? && WakeStep(s, c, OnProc(t), q.w, act, upd, next.base.ex.w) {
      WakeAdvances(s, c, OnProc(t), q.w, act, upd, next.base.ex.w, t);
      TestWakes(s, c, OnProc(t), q.w, act, upd, next.base.ex.w, t);
      WokenUp(s, s', upd, t);
    }
  }

  lemma OwnParent(s: State, c: nat)
    requires CoreOk(s) && TreeOk(s) && c < |s.cpus| && Self(s, c) < |s.threads| && Notifies(s.threads[Self(s, c)].base)
    ensures |s.threads| == |s.procs| && s.procs[Self(s, c)].parent != Some(Self(s, c))
    ensures s.cpus[c].proc == Some(Self(s, c))
  {
    hide LocksOk;
    hide NoffOk;
    NotifierHolds(s, Self(s, c));
    NotOwnParent(s, Self(s, c));
    OwnProc(s, c);
  }

  lemma ParentStep(s: State, c: nat, act: Act, upd: Upd, next: Ctx, s': State, e: nat)
    requires StepBy(s, c, act, upd, next, s') && CoreOk(s) && TreeOk(s) && ChansOk(s) && WakesOk(s) && e < |s.threads| == |s.procs|
    requires |s'.threads| == |s'.procs| == |s.threads|
    ensures ParentAwake(s', e)
  {
    hide StepBy;
    hide CoreOk;
    hide TreeOk;
    hide ChansOk;
    hide WakesOk;
    hide BaseStep;
    hide Grant;
    hide Moves;
    hide Stays;
    hide AsleepInWait;
    Cases(s, c, act, upd, next, s', e);
    if s'.threads[e].base == s.threads[e].base && Stays(s, c, upd, e) {
      ParentStays(s, c, act, upd, next, s', e);
    } else if e == Self(s, c) && Moves(s, c, act, upd, next.base) && s'.threads[e] == next {
      ParentMoves(s, c, act, upd, next, s');
    }
  }

  lemma WakesStep(s: State, c: nat, act: Act, upd: Upd, next: Ctx, s': State)
    requires StepBy(s, c, act, upd, next, s') && Inv(s)
    ensures |s'.threads| == |s'.procs| && WakesOk(s')
  {
    hide StepBy;
    hide CoreOk;
    hide TreeOk;
    hide ChansOk;
    hide WaitsOk;
    hide WakesOk;
    hide TicksOk;
    hide ZombiesOk;
    hide NotMissed;
    hide ParentAwake;
    SizesOk(s);
    Sizes(s, c, act, upd, next, s');
    forall t: nat, i: nat | t < |s'.threads| && i < |s'.procs| ensures NotMissed(s', t, i) {
      NotMissedStep(s, c, act, upd, next, s', t, i);
    }
    forall e: nat | e < |s'.threads| ensures ParentAwake(s', e) {
      ParentStep(s, c, act, upd, next, s', e);
    }
    IsWakesOk(s');
  }

  lemma IsWakesOk(s: State)
    requires |s.threads| == |s.procs|
    requires forall t: nat, i: nat | t < |s.threads| && i < |s.procs| :: NotMissed(s, t, i)
    requires forall e: nat | e < |s.threads| :: ParentAwake(s, e)
    ensures WakesOk(s)
  {
  }
}
