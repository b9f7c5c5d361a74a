/** The scan of wait, and the wakeups of exit, after a step. */
module WaitSteps {
  import opened ProcTypes
  import opened Machine
  import opened Locks
  import opened Invariant
  import opened CoreSteps
  import opened PlaceSteps
  import opened SlotSteps
  import opened Effects
  import opened TreeSteps
  import opened SleepSteps

  // ----- the scan -----

  lemma ScanHolds(pc: Pc, t: nat, n: nat)
    requires ScanBound(pc, n) > 0 || (pc.Wait? && (pc.wt.WtAt? || pc.wt.WtFail?))
    ensures WaitLock in HeldPc(pc, t) && !pc.ForkRet? && !pc.Exit? && !(pc.Sleep? && pc.sl.SlResume?)
  {
  }

  /** A process becomes a zombie, and a child gets a new parent, under wait_lock only. */
  lemma FamilyLock(s: State, c: nat, upd: Upd)
    requires c < |s.cpus| && Grant(s, Active(s, c), Self(s, c), upd)
    requires (upd.SetState? && upd.st == ZOMBIE) || (upd.SetParent? && upd.q.Some?)
    ensures WaitLock in Held(Active(s, c), Self(s, c))
  {
  }

  lemma WaitStays(s: State, c: nat, upd: Upd, s': State, t: nat)
    requires CoreOk(s) && WaitsOk(s) && Effect(s, upd, s') && Stays(s, c, upd, t)
    requires s'.threads[t].base == s.threads[t].base
    ensures WaitThread(s', t)
  {
    hide NoffOk;
    hide SlotsOk;
    hide LocksOk;
    hide Held;
    hide CpuOk;
    hide OffOk;
    var pc := s.threads[t].base;
    assert WaitThread(s, t) && ThreadOk(s, t);
    if ScanBound(pc, |s.procs|) > 0 || (pc.Wait? && (pc.wt.WtAt? || pc.wt.WtFail?)) {
      ScanHolds(pc, t, |s.procs|);
      if (upd.SetState? && upd.st == ZOMBIE) || (upd.SetParent? && upd.q.Some?) {
        FamilyLock(s, c, upd);
        OneHolder(s, c, t, WaitLock);
      }
      KidsKept(s, upd, s', t, ScanBound(pc, |s.procs|));
    }
  }

  /** No other change makes a zombie child. */
  lemma KidsKept(s: State, upd: Upd, s': State, t: nat, n: nat)
    requires Effect(s, upd, s') && !(upd.SetState? && upd.st == ZOMBIE) && !(upd.SetParent? && upd.q.Some?)
    requires NoZombie(s, t, n)
    ensures NoZombie(s', t, n)
  {
    forall i: nat | i < n && i < |s'.procs| ensures !IsZombieKid(s', t, i) {
      assert !IsZombieKid(s, t, i);
    }
  }

  lemma WaitMoves(s: State, c: nat, act: Act, upd: Upd, pc': Pc, s': State)
    requires CoreOk(s) && WaitsOk(s) && Effect(s, upd, s') && Moves(s, c, act, upd, pc')
    requires s'.threads[Self(s, c)].base == pc'
    ensures WaitThread(s', Self(s, c))
  {
    hide CoreOk;
    var self, pc := Self(s, c), s.threads[Self(s, c)].base;
    assert WaitThread(s, self);
    if pc.Wait? {
      ScanMoves(s, self, pc.wt, act, upd, pc', s');
    } else {
      hide BaseStep;
      NotScanning(s, c, self, pc, act, upd, pc');
      if ScanBound(pc', |s.procs|) > 0 {
        KidsKept(s, upd, s', self, ScanBound(pc, |s.procs|));
      }
    }
  }

  lemma NotScanning(s: State, c: nat, self: nat, pc: Pc, act: Act, upd: Upd, pc': Pc)
    requires c < |s.cpus| && BaseStep(s, c, self, pc, act, upd, pc') && !pc.Wait?
    ensures pc'.Wait? ==> pc'.wt == WtLock || pc'.wt == WtAt(0, false)
    ensures ScanBound(pc', |s.procs|) > 0 ==> ScanBound(pc, |s.procs|) == ScanBound(pc', |s.procs|) && upd == NoUpd
  {
    hide Elapsed;
  }

  lemma ScanMoves(s: State, self: nat, q: WaitPc, act: Act, upd: Upd, pc': Pc, s': State)
    requires self < |s.threads| == |s.procs| && s.threads[self].base == Wait(q) && WaitThread(s, self)
    requires WaitStep(s, self, q, act, upd, pc') && Effect(s, upd, s') && s'.threads[self].base == pc'
    ensures WaitThread(s', self)
  {
    if ScanBound(pc', |s.procs|) > 0 {
      KidsKept(s, upd, s', self, ScanBound(Wait(q), |s.procs|));
      assert ScanBound(pc', |s.procs|) <= ScanBound(Wait(q), |s.procs|) + 1;
    }
  }

  lemma WaitsStep(s: State, c: nat, act: Act, upd: Upd, next: Ctx, s': State)
    requires StepBy(s, c, act, upd, next, s') && CoreOk(s) && |s.threads| == |s.procs| && WaitsOk(s)
    ensures |s'.threads| == |s'.procs| && WaitsOk(s')
  {
    hide StepBy;
    hide CoreOk;
    hide WaitThread;
    hide BaseStep;
    hide Grant;
    Sizes(s, c, act, upd, next, s');
    forall t: nat | t < |s'.threads| ensures WaitThread(s', t) {
      Cases(s, c, act, upd, next, s', t);
      if s'.threads[t].base == s.threads[t].base && Stays(s, c, upd, t) {
        WaitStays(s, c, upd, s', t);
      } else if t == Self(s, c) && Moves(s, c, act, upd, next.base) && s'.threads[t] == next {
        WaitMoves(s, c, act, upd, next.base, s');
      } else {
        ForkRetWait(s', t);
      }
    }
  }

  lemma ForkRetWait(s: State, t: nat)
    requires t < |s.threads| == |s.procs| && s.threads[t].base == ForkRet
    ensures WaitThread(s, t)
  {
  }
}
