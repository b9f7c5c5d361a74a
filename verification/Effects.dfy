/** A step seen by one thread: its code advances, it stays where it is, or fork prepares it. */
module Effects {
  import opened ProcTypes
  import opened Machine
  import opened Locks
  import opened Invariant
  import opened CoreSteps
  import opened PlaceSteps
  import opened SlotSteps

  /** The shared variables after a step. */
  ghost predicate Effect(s: State, upd: Upd, s': State) {
    && s'.procs == ProcsAfter(s.procs, upd)
    && s'.init == s.init
    && |s'.threads| == |s.threads| == |s.procs|
    && s'.nextpid == (if upd.BumpPid? then s.nextpid + 1 else s.nextpid)
    && s'.now == (if upd.Tick? then s.now + 1 else s.now)
    && s'.exited == ExitedAfter(s, upd) && s'.marked == MarkedAfter(s, upd)
  }

  /** CPU `c` advances the code of the thread it executes to `pc'`. */
  ghost predicate Moves(s: State, c: nat, act: Act, upd: Upd, pc': Pc) {
    && c < |s.cpus| && Self(s, c) < |s.threads| == |s.procs| && s.threads[Self(s, c)].isr == Idle
    && !s.threads[Self(s, c)].base.Sched?
    && BaseStep(s, c, Self(s, c), s.threads[Self(s, c)].base, act, upd, pc')
  }

  /** CPU `c` executes `ctx`, which grants `upd`; thread `t`, if it is the one that runs, handles an interrupt. */
  ghost predicate Stays(s: State, c: nat, upd: Upd, t: nat) {
    && c < |s.cpus| && t < |s.threads| == |s.procs|
    && Grant(s, Active(s, c), Self(s, c), upd)
    && (t == Self(s, c) ==> s.threads[t].isr != Idle || upd.SetIntr?)
  }

  lemma Cases(s: State, c: nat, act: Act, upd: Upd, next: Ctx, s': State, t: nat)
    requires StepBy(s, c, act, upd, next, s') && CoreOk(s) && t < |s.threads|
    ensures Effect(s, upd, s') && c < |s.cpus| && Grant(s, Active(s, c), Self(s, c), upd)
    ensures || (s'.threads[t].base == s.threads[t].base && Stays(s, c, upd, t))
            || (t == Self(s, c) && Moves(s, c, act, upd, next.base) && s'.threads[t] == next)
            || (upd == SetContext(t) && s'.threads[t] == Ctx(ForkRet, Idle))
  {
    hide BaseStep;
    hide IsrStep;
    hide LocksOk;
    hide NoffOk;
    hide Grant;
    hide SlotOk;
    hide CpuOk;
    hide ExitedAfter;
    hide MarkedAfter;
    Sizes(s, c, act, upd, next, s');
    Granted(s, c, act, upd, next);
    var self := Self(s, c);
    if t == self {
      assert ThreadOk(s, t);
      ThreadCpu(s, c, act, upd, next, s');
    }
  }

  /** A thread in the middle of a call is alive until exit makes it a zombie. */
  lemma Busy(s: State, t: nat)
    requires PlaceOk(s) && t < |s.threads|
    requires !s.threads[t].base.Exit? && !s.threads[t].base.ForkRet?
    ensures Alive(s.procs[t].state)
  {
    assert ThreadOk(s, t);
    if Placed(s, t) {
      var d: nat :| d < |s.cpus| && Place(s.cpus[d].ctx.base) == Some(t);
      assert CpuOk(s, d);
    }
  }

  /** The thread a CPU executes belongs to a process that is alive, unless it is in exit. */
  lemma Acting(s: State, c: nat)
    requires PlaceOk(s) && c < |s.cpus| && Self(s, c) < |s.threads|
    ensures s.procs[Self(s, c)].state == OnState(s.threads[Self(s, c)])
  {
    assert CpuOk(s, c);
  }

  lemma Linked(s: State, c: nat, act: Act, upd: Upd, next: Ctx, s': State)
    requires StepBy(s, c, act, upd, next, s') && CoreOk(s)
    ensures Effect(s, upd, s') && c < |s.cpus| && Grant(s, Active(s, c), Self(s, c), upd) && |s.threads| == |s.procs|
  {
    hide StepBy;
    hide Grant;
    Cases(s, c, act, upd, next, s', s.init);
  }
}
