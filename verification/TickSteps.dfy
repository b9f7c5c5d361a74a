/** sys_sleep and clockintr after a step. */
module TickSteps {
  import opened ProcTypes
  import opened Machine
  import opened Locks
  import opened Invariant
  import opened CoreSteps
  import opened PlaceSteps
  import opened SlotSteps
  import opened Effects
  import opened TreeSteps
  import opened SleepSteps
  import opened WakeSteps

  /** The wrapped difference of two tick counts is at most the true one. */
  lemma WrappedElapsed(now: nat, start: nat)
    requires start <= now
    ensures (now % 0x1_0000_0000 - start % 0x1_0000_0000) % 0x1_0000_0000 <= now - start
  {
    var m := 0x1_0000_0000;
    var d := now - start;
    assert now == m * (now / m) + now % m && start == m * (start / m) + start % m;
    var k := now / m - start / m;
    assert now % m - start % m == d - m * k;
    ModShift(d, k);
  }

  lemma ModShift(d: nat, k: int)
    ensures (d - 0x1_0000_0000 * k) % 0x1_0000_0000 == d % 0x1_0000_0000 <= d
  {
    var m := 0x1_0000_0000;
    assert d == m * (d / m) + d % m;
    assert d - m * k == m * (d / m - k) + d % m;
  }

  /** The points of sys_sleep between testing the tick count and releasing tickslock in sleep. */
  predicate Tested(pc: Pc) {
    || (pc.Ticks? && pc.ts.TsKilled?)
    || (pc.Sleep? && pc.why.InTicks? && (pc.sl.SlLock? || pc.sl.SlUnlk?))
  }

  lemma TestedHolds(pc: Pc, t: nat)
    requires Tested(pc)
    ensures TicksLock in HeldPc(pc, t) && !(pc.Sleep? && pc.sl.SlResume?)
  {
  }

  lemma TickStays(s: State, c: nat, upd: Upd, s': State, t: nat)
    requires CoreOk(s) && t < |s.threads| && TickThread(s, t) && Effect(s, upd, s') && Stays(s, c, upd, t)
    requires s'.threads[t].base == s.threads[t].base
    ensures TickThread(s', t)
  {
    hide LocksOk;
    hide NoffOk;
    hide SlotsOk;
    hide CpuOk;
    hide OffOk;
    hide HeldPc;
    var pc := s.threads[t].base;
    assert ThreadOk(s, t);
    if upd.Tick? && Tested(pc) {
      TestedHolds(pc, t);
      OneHolder(s, c, t, TicksLock);
    }
  }

  lemma TickMoves(s: State, c: nat, act: Act, upd: Upd, pc': Pc, s': State)
    requires Moves(s, c, act, upd, pc') && TickThread(s, Self(s, c)) && Effect(s, upd, s')
    requires s'.threads[Self(s, c)].base == pc'
    ensures TickThread(s', Self(s, c))
  {
    var self, pc := Self(s, c), s.threads[Self(s, c)].base;
    if pc.Ticks? {
      OwnTicks(s, self, pc.ts, act, upd, pc');
      hide BaseStep;
      hide TickPoint;
    } else {
      hide BaseStep;
      OtherTicks(s, c, self, pc, act, upd, pc');
    }
  }

  lemma OwnTicks(s: State, self: nat, q: TickPc, act: Act, upd: Upd, pc': Pc)
    requires self < |s.procs| && TicksStep(s, self, q, act, upd, pc') && TickPoint(s.now, Ticks(q))
    ensures TickPoint(s.now, pc') && !upd.Tick?
  {
    if q.TsLoop? {
      WrappedElapsed(s.now, q.start);
    }
  }

  lemma OtherTicks(s: State, c: nat, self: nat, pc: Pc, act: Act, upd: Upd, pc': Pc)
    requires c < |s.cpus| && BaseStep(s, c, self, pc, act, upd, pc') && !pc.Ticks?
    ensures !upd.Tick?
    ensures pc'.Ticks? ==> pc'.ts.TsLock? || (pc.Sleep? && pc.why.InTicks? && pc'.ts == TsLoop(pc.why.n, pc.why.t0, pc.why.start))
    ensures pc'.Sleep? && pc'.why.InTicks? ==> pc.Sleep? && pc.why == pc'.why && (pc'.sl.SlUnlk? ==> pc.sl.SlLock?) && !pc'.sl.SlLock?
  {
  }

  // ----- clockintr and the sleepers -----

  /** CPU `c` counts a tick and then has every slot ahead of it. */
  lemma TickWakes(s: State, c: nat, act: Act, upd: Upd, next: Ctx, s': State, t: nat)
    requires StepBy(s, c, act, upd, next, s') && CoreOk(s) && upd.Tick?
    ensures ClockWakes(s', t)
  {
    hide LocksOk;
    hide NoffOk;
    hide BaseStep;
    hide Held;
    NextIsr(s, c, act, upd, next, s');
    assert Pending(Active(s', c).isr.w, t);
  }

  /** A CPU in clockintr stays in its context. */
  lemma NextIsr(s: State, c: nat, act: Act, upd: Upd, next: Ctx, s': State)
    requires StepBy(s, c, act, upd, next, s') && CoreOk(s) && (upd.Tick? || Active(s, c).isr.ClkWake?)
    ensures c < |s'.cpus| && Active(s', c) == next && !upd.SwitchOut?
    ensures Active(s, c).isr.ClkWake? || (upd.Tick? && next.isr == ClkWake(WkAt(0)))
    ensures Active(s, c).isr.ClkWake? ==> IsrStep(s, c, Self(s, c), Active(s, c).base, Active(s, c).isr, act, upd, next.isr)
  {
    hide LocksOk;
    hide NoffOk;
    hide Held;
    hide SlotOk;
    hide OffOk;
    Granted(s, c, act, upd, next);
    assert CpuOk(s, c);
    if Self(s, c) < |s.threads| {
      ThreadActive(s, c, act, upd, next, s');
    } else {
      SchedNext(s, c, act, upd, next);
    }
  }

  /** A sleeper is not the process that clockintr interrupted. */
  lemma NotInterrupted(s: State, c: nat, t: nat)
    requires CoreOk(s) && c < |s.cpus| && t < |s.threads| == |s.procs| && Asleep(s, t) && Active(s, c).isr != Idle
    ensures Self(s, c) != t && s.cpus[c].proc != Some(t)
  {
    hide LocksOk;
    hide NoffOk;
    hide SlotsOk;
    OwnProc(s, c);
    assert ThreadOk(s, t) && CpuOk(s, c);
  }

  /** clockintr, as it advances: a sleeper it tests becomes RUNNABLE. */
  lemma ClockAdvances(s: State, c: nat, act: Act, upd: Upd, next: Ctx, s': State, t: nat)
    requires StepBy(s, c, act, upd, next, s') && CoreOk(s) && TreeOk(s) && ChansOk(s) && t < |s.threads| == |s.procs| == |s'.threads| == |s'.procs|
    requires Active(s, c).isr.ClkWake? && Pending(Active(s, c).isr.w, t)
    requires Asleep(s, t) && s.threads[t].base.why.InTicks?
    ensures ClockWakes(s', t) || !Asleep(s', t)
  {
    hide CoreOk;
    hide TreeOk;
    hide ChansOk;
    hide Asleep;
    hide WakeStep;
    NextIsr(s, c, act, upd, next, s');
    NotInterrupted(s, c, t);
    var w := Active(s, c).isr.w;
    if next.isr.ClkWake? && WakeStep(s, c, OnTicks, w, act, upd, next.isr.w) {
      WakeAdvances(s, c, OnTicks, w, act, upd, next.isr.w, t);
      if w == WkTest(t) {
        ClockTests(s, c, act, upd, next, s', t);
      } else {
        assert Active(s', c).isr.ClkWake? && Pending(Active(s', c).isr.w, t);
      }
    }
  }

  lemma ClockTests(s: State, c: nat, act: Act, upd: Upd, next: Ctx, s': State, t: nat)
    requires StepBy(s, c, act, upd, next, s') && CoreOk(s) && ChansOk(s) && t < |s.threads| == |s.procs| == |s'.threads| == |s'.procs|
    requires Active(s, c).isr == ClkWake(WkTest(t)) && next.isr.ClkWake? && Self(s, c) != t
    requires WakeStep(s, c, OnTicks, WkTest(t), act, upd, next.isr.w)
    requires Asleep(s, t) && s.threads[t].base.why.InTicks?
    ensures !Asleep(s', t)
  {
    hide StepBy;
    hide CoreOk;
    hide ChansOk;
    hide BaseStep;
    Actor(s, c, act, upd, next, s');
    TestWakes(s, c, OnTicks, WkTest(t), act, upd, next.isr.w, t);
    Cases(s, c, act, upd, next, s', t);
    WokenUp(s, s', upd, t);
  }

  lemma NoMissedStep(s: State, c: nat, act: Act, upd: Upd, next: Ctx, s': State, t: nat)
    requires StepBy(s, c, act, upd, next, s') && CoreOk(s) && TreeOk(s) && ChansOk(s) && t < |s.threads| == |s.procs| == |s'.threads| == |s'.procs|
    requires NoMissedTick(s, t) && TickThread(s, t)
    ensures NoMissedTick(s', t)
  {
    hide StepBy;
    hide CoreOk;
    hide TreeOk;
    hide ChansOk;
    hide ClockWakes;
    Actor(s, c, act, upd, next, s');
    Sizes(s, c, act, upd, next, s');
    ChanStep(s, c, act, upd, next, s', t);
    Counting(s, c, act, upd, next, s');
    if Asleep(s', t) && s'.threads[t].base.why.InTicks? {
      if upd.Tick? {
        TickWakes(s, c, act, upd, next, s', t);
      } else if Asleep(s, t) && ClockWakes(s, t) {
        ClockStep(s, c, act, upd, next, s', t);
      }
    }
  }

  lemma Counting(s: State, c: nat, act: Act, upd: Upd, next: Ctx, s': State)
    requires StepBy(s, c, act, upd, next, s')
    ensures s'.now == if upd.Tick? then s.now + 1 else s.now
  {
  }

  lemma ClockStep(s: State, c: nat, act: Act, upd: Upd, next: Ctx, s': State, t: nat)
    requires StepBy(s, c, act, upd, next, s') && CoreOk(s) && TreeOk(s) && ChansOk(s) && t < |s.threads| == |s.procs| == |s'.threads| == |s'.procs|
    requires Asleep(s, t) && s.threads[t].base.why.InTicks? && ClockWakes(s, t)
    ensures ClockWakes(s', t) || !Asleep(s', t)
  {
    hide StepBy;
    hide CoreOk;
    hide TreeOk;
    hide ChansOk;
    hide Asleep;
    var d: nat :| d < |s.cpus| && Active(s, d).isr.ClkWake? && Pending(Active(s, d).isr.w, t);
    Sizes(s, c, act, upd, next, s');
    if d == c {
      ClockAdvances(s, c, act, upd, next, s', t);
    } else {
      CoreParts(s);
      OthersKeep(s, c, act, upd, next, s', d);
      assert Active(s', d).isr.ClkWake? && Pending(Active(s', d).isr.w, t);
    }
  }

  lemma CoreParts(s: State)
    requires CoreOk(s)
    ensures LocksOk(s) && NoffOk(s) && PlaceOk(s) && SlotsOk(s)
  {
  }

  lemma SleepersStep(s: State, c: nat, act: Act, upd: Upd, next: Ctx, s': State)
    requires StepBy(s, c, act, upd, next, s') && CoreOk(s) && TreeOk(s) && ChansOk(s) && TicksOk(s)
    ensures |s'.threads| == |s'.procs| && TicksOk(s')
  {
    hide StepBy;
    hide CoreOk;
    hide TreeOk;
    hide ChansOk;
    hide TickThread;
    hide NoMissedTick;
    hide BaseStep;
    hide Grant;
    SizesOk(s);
    Sizes(s, c, act, upd, next, s');
    forall t: nat | t < |s'.threads| ensures TickThread(s', t) && NoMissedTick(s', t) {
      assert TickThread(s, t) && NoMissedTick(s, t);
      NoMissedStep(s, c, act, upd, next, s', t);
      Cases(s, c, act, upd, next, s', t);
      if s'.threads[t].base == s.threads[t].base && Stays(s, c, upd, t) {
        TickStays(s, c, upd, s', t);
      } else if t == Self(s, c) && Moves(s, c, act, upd, next.base) && s'.threads[t] == next {
        TickMoves(s, c, act, upd, next.base, s');
      } else {
        ForkRetTick(s', t);
      }
    }
  }

  lemma ForkRetTick(s: State, t: nat)
    requires t < |s.threads| && s.threads[t].base == ForkRet
    ensures TickThread(s, t)
  {
  }
}
