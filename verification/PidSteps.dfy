/** Pids after a step: distinct, and below nextpid. */
module PidSteps {
  import opened ProcTypes
  import opened Machine
  import opened Locks
  import opened Invariant
  import opened CoreSteps
  import opened PlaceSteps
  import opened SlotSteps
  import opened Effects

  /** pid_lock admits one thread at a time between reading and bumping nextpid. */
  lemma OneBump(s: State, c: nat, t: nat)
    requires CoreOk(s) && c < |s.cpus| && t < |s.threads|
    requires Active(s, c).isr == Idle && Active(s, c).base.Fork? && Active(s, c).base.fk.FkPidBump?
    requires s.threads[t].base.Fork? && s.threads[t].base.fk.FkPidBump?
    ensures t == Self(s, c)
  {
    OneHolder(s, c, t, PidLock);
  }

  lemma PidStays(s: State, c: nat, upd: Upd, s': State, t: nat)
    requires CoreOk(s) && PidsOk(s) && Effect(s, upd, s') && Stays(s, c, upd, t) && s'.threads[t].base == s.threads[t].base
    ensures PidOk(s', t)
  {
    hide CoreOk;
    hide Held;
    assert PidOk(s, t);
    var self, pc := Self(s, c), s.threads[t].base;
    if upd.BumpPid? && pc.Fork? && pc.fk.FkPidBump? {
      OneBump(s, c, t);
    }
    if upd.SetPid? && PidAt(pc).Some? && upd.pid == PidAt(pc).value {
      Runner(s, c);
    }
  }

  /** Fork code is thread code. */
  lemma Runner(s: State, c: nat)
    requires CoreOk(s) && c < |s.cpus| && Active(s, c).base.Fork?
    ensures Self(s, c) < |s.threads|
  {
    assert CpuOk(s, c);
  }

  lemma ForkPid(s: State, s': State, self: nat, q: ForkPc, act: Act, upd: Upd, pc': Pc)
    requires PidsOk(s) && Effect(s, upd, s') && self < |s.threads| && s.threads[self].base == Fork(q)
    requires ForkStep(s, self, q, act, upd, pc') && s'.threads[self].base == pc'
    ensures PidOk(s', self)
    ensures PidAt(pc').Some? ==> PidAt(pc') == PidAt(Fork(q)) || PidAt(pc').value == s.nextpid
  {
    hide FreeStep;
    assert PidOk(s, self);
  }

  lemma PidMoves(s: State, c: nat, act: Act, upd: Upd, pc': Pc, s': State)
    requires CoreOk(s) && PidsOk(s) && Effect(s, upd, s') && Moves(s, c, act, upd, pc') && s'.threads[Self(s, c)].base == pc'
    ensures PidOk(s', Self(s, c))
    ensures PidAt(pc').Some? ==> PidAt(pc') == PidAt(s.threads[Self(s, c)].base) || PidAt(pc').value == s.nextpid
  {
    hide CoreOk;
    hide ForkStep;
    var self, pc := Self(s, c), s.threads[Self(s, c)].base;
    if pc.Fork? {
      ForkPid(s, s', self, pc.fk, act, upd, pc');
    } else {
      hide PidsOk;
      hide BaseStep;
      NoPid(s, c, self, pc, act, upd, pc');
    }
  }

  lemma NoPid(s: State, c: nat, self: nat, pc: Pc, act: Act, upd: Upd, pc': Pc)
    requires c < |s.cpus| && BaseStep(s, c, self, pc, act, upd, pc') && !pc.Fork?
    ensures pc'.Fork? ==> pc' == Fork(FkAt(0))
  {
    hide WakeStep;
    hide FreeStep;
    hide Elapsed;
  }

  lemma PidStep(s: State, c: nat, act: Act, upd: Upd, next: Ctx, s': State, t: nat)
    requires StepBy(s, c, act, upd, next, s') && CoreOk(s) && PidsOk(s) && t < |s.threads|
    ensures t < |s'.threads| && PidOk(s', t)
    ensures PidAt(s'.threads[t].base).Some? ==>
      PidAt(s'.threads[t].base) == PidAt(s.threads[t].base) || PidAt(s'.threads[t].base).value == s.nextpid
  {
    hide StepBy;
    hide CoreOk;
    hide PidsOk;
    hide Grant;
    Cases(s, c, act, upd, next, s', t);
    hide Stays;
    hide Moves;
    if s'.threads[t].base == s.threads[t].base && Stays(s, c, upd, t) {
      PidStays(s, c, upd, s', t);
    } else if t == Self(s, c) && Moves(s, c, act, upd, next.base) && s'.threads[t] == next {
      PidMoves(s, c, act, upd, next.base, s');
    }
  }

  /** Setting a pid keeps the pids of the slots distinct. */
  lemma SlotPids(s: State, c: nat, upd: Upd, s': State)
    requires CoreOk(s) && PidsOk(s) && Effect(s, upd, s') && c < |s.cpus| && Grant(s, Active(s, c), Self(s, c), upd)
    ensures 0 < s'.nextpid && forall i | 0 <= i < |s'.procs| :: s'.procs[i].pid < s'.nextpid
    ensures forall i, j | 0 <= i < |s'.procs| && 0 <= j < |s'.procs| && s'.procs[i].pid != 0 && s'.procs[i].pid == s'.procs[j].pid :: i == j
  {
    hide CoreOk;
    hide Held;
    if upd.SetPid? && upd.pid != 0 {
      Runner(s, c);
      assert PidOk(s, Self(s, c));
    }
  }

  lemma PidsStep(s: State, c: nat, act: Act, upd: Upd, next: Ctx, s': State)
    requires StepBy(s, c, act, upd, next, s') && CoreOk(s) && PidsOk(s)
    ensures PidsOk(s')
  {
    hide StepBy;
    hide CoreOk;
    hide Grant;
    hide Stays;
    hide Moves;
    Sizes(s, c, act, upd, next, s');
    Actor(s, c, act, upd, next, s');
    Linked(s, c, act, upd, next, s');
    SlotPids(s, c, upd, s');
    forall t: nat | t < |s'.threads|
      ensures PidOk(s', t)
      ensures PidAt(s'.threads[t].base).Some? ==>
        PidAt(s'.threads[t].base) == PidAt(s.threads[t].base) || PidAt(s'.threads[t].base).value == s.nextpid
      ensures t != Self(s, c) ==> PidAt(s'.threads[t].base) == PidAt(s.threads[t].base) || PidAt(s'.threads[t].base) == None
    {
      PidStep(s, c, act, upd, next, s', t);
      Cases(s, c, act, upd, next, s', t);
    }
    forall t: nat, u: nat | t < |s'.threads| && u < |s'.threads| && PidAt(s'.threads[t].base).Some?
          && PidAt(s'.threads[t].base) == PidAt(s'.threads[u].base)
      ensures t == u
    {
      assert PidOk(s, t) && PidOk(s, u);
    }
  }
}
