/** The state diagram of a process: which code moves a process from one state to another. */
module States {
  import opened ProcTypes
  import opened Machine
  import opened Locks
  import opened Invariant
  import opened CoreSteps
  import opened PlaceSteps
  import opened Effects
  import opened TreeSteps
  import opened Learned
  import opened Protocol

  /** Code that wakes slot `i`, asleep on `chan`: wakeup of that very channel, or kill. */
  predicate Wakes(s: State, ctx: Ctx, i: nat, chan: Chan) {
    || (ctx.isr == ClkWake(WkTest(i)) && chan == OnTicks)
    || (ctx.isr == Idle && ctx.base.Kill? && ctx.base.kl.KlWake? && ctx.base.kl.i == i)
    || (ctx.isr == Idle && ctx.base.Exit? && ctx.base.ex.ExInit? && ctx.base.ex.w == WkTest(i) && chan == OnProc(s.init))
    || (ctx.isr == Idle && ctx.base.Exit? && ctx.base.ex.ExParent? && ctx.base.ex.w == WkTest(i)
        && chan == if ctx.base.ex.q.Some? then OnProc(ctx.base.ex.q.value) else NoChan)
  }

  /** The code at `ctx`, in the thread of slot `self`, may move slot `i` to state `st`. */
  predicate Transition(s: State, ctx: Ctx, self: nat, i: nat, st: ProcState)
    requires i < |s.procs|
  {
    match (s.procs[i].state, st)
    case (UNUSED, USED) => ctx == Ctx(Fork(FkUsed(i)), Idle)
    case (USED, UNUSED) => ctx == Ctx(Fork(FkUndo(i, FrState)), Idle)
    case (USED, RUNNABLE) => ctx.isr == Idle && ctx.base.Fork? && ctx.base.fk.FkRun? && ctx.base.fk.i == i
    case (RUNNABLE, RUNNING) => ctx == Ctx(Sched(SchTest(i)), Idle)
    case (RUNNING, RUNNABLE) => i == self && ctx.isr == YSet
    case (RUNNING, SLEEPING) => i == self && ctx.isr == Idle && ctx.base.Sleep? && ctx.base.sl == SlState
    case (SLEEPING, RUNNABLE) => Wakes(s, ctx, i, s.procs[i].chan)
    case (RUNNING, ZOMBIE) => i == self && ctx.isr == Idle && ctx.base.Exit? && ctx.base.ex == ExZombie
    case (ZOMBIE, UNUSED) => ctx.isr == Idle && ctx.base.Wait? && ctx.base.wt.WtFree? && ctx.base.wt.j == i && ctx.base.wt.f == FrState
    case _ => false
  }

  /** A slot changes state only along the diagram, by a CPU that holds its p->lock. */
  lemma StateChanges(s: State, s': State, i: nat) returns (c: nat)
    requires Reachable(s) && Step(s, s') && i < |s.procs|
    ensures i < |s'.procs|
    ensures s'.procs[i].state != s.procs[i].state ==>
      && c < |s.cpus| && PLock(i) in s.held && s.held[PLock(i)] == c
      && Transition(s, Active(s, c), Self(s, c), i, s'.procs[i].state)
  {
    ReachableInv(s);
    hide Reachable;
    InvParts(s);
    hide Inv;
    hide StepBy;
    hide CoreOk;
    hide TreeOk;
    hide Transition;
    var act: Act, upd: Upd, next: Ctx;
    c, act, upd, next :| StepBy(s, c, act, upd, next, s');
    ChangedBy(s, c, act, upd, next, s', i);
  }

  lemma ChangedBy(s: State, c: nat, act: Act, upd: Upd, next: Ctx, s': State, i: nat)
    requires StepBy(s, c, act, upd, next, s') && CoreOk(s) && TreeOk(s) && i < |s.procs|
    ensures c < |s.cpus| && i < |s'.procs|
    ensures s'.procs[i].state != s.procs[i].state ==>
      PLock(i) in s.held && s.held[PLock(i)] == c && Transition(s, Active(s, c), Self(s, c), i, s'.procs[i].state)
  {
    Linked(s, c, act, upd, next, s');
    EffectProcs(s, upd, s');
    NextIs(s, c, act, upd, next, s');
    ActorFacts(s, c);
    hide StepBy;
    hide CoreOk;
    hide TreeOk;
    hide Grant;
    hide Next;
    hide SlotOk;
    hide Effect;
    hide Transition;
    if s'.procs[i].state != s.procs[i].state {
      Granting(s, c, act, upd, next, i);
      MovesBy(s, c, act, upd, next, i, s'.procs[i].state);
    }
  }

  lemma Granting(s: State, c: nat, act: Act, upd: Upd, next: Ctx, i: nat)
    requires CoreOk(s) && c < |s.cpus| && Grant(s, Active(s, c), Self(s, c), upd) && upd.SetState? && upd.i == i
    ensures i < |s.procs| && PLock(i) in s.held && s.held[PLock(i)] == c
  {
    hide Held;
    LockHeld(s, c, PLock(i));
  }

  lemma MovesBy(s: State, c: nat, act: Act, upd: Upd, next: Ctx, i: nat, st: ProcState)
    requires c < |s.cpus| && Next(s, c, act, upd, next) && upd == SetState(i, st) && i < |s.procs| && st != s.procs[i].state
    requires Grant(s, Active(s, c), Self(s, c), upd)
    requires |s.threads| == |s.procs|
    requires Self(s, c) < |s.threads| ==>
      && SlotOk(s, Self(s, c)) && s.procs[Self(s, c)].state == OnState(Active(s, c)) && Active(s, c) == s.threads[Self(s, c)]
    requires !Active(s, c).base.Sched? ==> Self(s, c) < |s.threads|
    ensures Transition(s, Active(s, c), Self(s, c), i, st)
  {
    hide Held;
    if st == RUNNABLE && s.procs[i].state == SLEEPING {
      Waking(s, c, act, upd, next, i);
    }
    hide Next;
    hide Wakes;
  }

  lemma Waking(s: State, c: nat, act: Act, upd: Upd, next: Ctx, i: nat)
    requires c < |s.cpus| && Next(s, c, act, upd, next) && upd == SetState(i, RUNNABLE) && i < |s.procs| && s.procs[i].state == SLEEPING
    ensures var ctx := Active(s, c);
      Wakes(s, ctx, i, s.procs[i].chan) || (ctx.isr == YSet && i == Self(s, c))
      || (ctx.isr == Idle && ctx.base.Fork? && ctx.base.fk.FkRun? && ctx.base.fk.i == i)
  {
    var ctx := Active(s, c);
    if ctx.isr == Idle {
      BaseWaking(s, c, Self(s, c), ctx.base, act, upd, next.base, i);
    }
    hide BaseStep;
  }

  lemma BaseWaking(s: State, c: nat, self: nat, pc: Pc, act: Act, upd: Upd, pc': Pc, i: nat)
    requires c < |s.cpus| && BaseStep(s, c, self, pc, act, upd, pc') && upd == SetState(i, RUNNABLE) && i < |s.procs|
    ensures Wakes(s, Ctx(pc, Idle), i, s.procs[i].chan) || (pc.Fork? && pc.fk.FkRun? && pc.fk.i == i)
  {
  }
}
