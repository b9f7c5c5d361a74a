/** Exit statuses from exit to wait, and which processes have been marked as killed. */
module History {
  import opened ProcTypes
  import opened Machine
  import opened Locks
  import opened Invariant
  import opened CoreSteps
  import opened PlaceSteps
  import opened SlotSteps
  import opened Effects
  import opened PidSteps
  import opened TreeSteps
  import opened SleepSteps
  import opened TickSteps
  import opened Learned

  // ----- exit statuses -----

  /** What wait is about to return. */
  function GotOf(pc: Pc): Option<Got> {
    if pc.Wait? && pc.wt.WtFree? then Some(pc.wt.got)
    else if pc.Wait? && pc.wt.WtUnlkChild? then Some(pc.wt.got)
    else if pc.Wait? && pc.wt.WtDone? then Some(pc.wt.got)
    else None
  }

  ghost predicate ExitedSlot(s: State, i: nat)
    requires i < |s.procs|
  {
    var p := s.procs[i];
    p.pid != 0 ==> if p.state == ZOMBIE then p.pid in s.exited && s.exited[p.pid] == p.xstate else p.pid !in s.exited
  }

  ghost predicate ExitedThread(s: State, t: nat)
    requires t < |s.threads| == |s.procs|
  {
    var pc, p := s.threads[t].base, s.procs[t];
    && (PidAt(pc).Some? ==> PidAt(pc).value !in s.exited)
    && (GotOf(pc).Some? ==> GotOf(pc).value.pid in s.exited && s.exited[GotOf(pc).value.pid] == GotOf(pc).value.xstate)
    && (pc.Exit? && (pc.ex.ExUnlk? || pc.ex.ExSwitch? || pc.ex.ExDead?) && p.state == ZOMBIE && p.pid != 0 ==> p.xstate == pc.status)
  }

  ghost predicate ExitedOk(s: State)
    requires |s.threads| == |s.procs|
  {
    && (forall p | p in s.exited :: 0 < p < s.nextpid)
    && (forall i: nat | i < |s.procs| :: ExitedSlot(s, i))
    && (forall t: nat | t < |s.threads| :: ExitedThread(s, t))
  }

  /** The log grows when a live process becomes a zombie, by its own pid. */
  lemma LogStep(s: State, c: nat, upd: Upd, s': State)
    requires CoreOk(s) && PidsOk(s) && TreeOk(s) && LearnedOk(s) && ExitedOk(s) && Effect(s, upd, s') && c < |s.cpus|
    requires Grant(s, Active(s, c), Self(s, c), upd)
    ensures s'.exited == s.exited || (upd == SetState(Self(s, c), ZOMBIE) && Self(s, c) < |s.procs|
      && Alive(s.procs[Self(s, c)].state) && s.procs[Self(s, c)].pid != 0 && s.procs[Self(s, c)].pid !in s.exited
      && s'.exited == s.exited[s.procs[Self(s, c)].pid := s.procs[Self(s, c)].xstate])
    ensures forall p | p in s'.exited :: 0 < p < s'.nextpid
  {
    hide CoreOk;
    hide Held;
    hide TreeThread;
    hide PidOk;
    ActorFacts(s, c);
    if upd.SetState? && upd.st == ZOMBIE {
      assert ExitedSlot(s, Self(s, c));
    }
  }

  lemma SlotLogged(s: State, c: nat, upd: Upd, s': State, i: nat)
    requires CoreOk(s) && PidsOk(s) && TreeOk(s) && LearnedOk(s) && ExitedOk(s) && Effect(s, upd, s') && c < |s.cpus|
    requires Grant(s, Active(s, c), Self(s, c), upd) && i < |s.procs|
    ensures ExitedSlot(s', i)
  {
    LogStep(s, c, upd, s');
    ActorFacts(s, c);
    ActorPid(s, c, upd);
    ActorLearned(s, c);
    assert ExitedSlot(s, i);
    if Self(s, c) < |s.threads| {
      assert ExitedThread(s, Self(s, c));
    }
    hide CoreOk;
    hide Held;
    hide LinkOk;
    hide LearnedOk;
    hide TreeOk;
    hide ExitedOk;
  }

  lemma ActorLearned(s: State, c: nat)
    requires LearnedOk(s) && c < |s.cpus|
    ensures CtxLearned(s.procs, s.init, Active(s, c), Self(s, c))
  {
  }

  /** A zombie that wait finds still has its pid. */
  lemma FoundPid(s: State, c: nat, j: nat)
    requires CoreOk(s) && TreeOk(s) && ZombiesOk(s) && c < |s.cpus| && Self(s, c) < |s.threads|
    requires s.threads[Self(s, c)] == Ctx(Wait(WtTest(j)), Idle) && j < |s.procs| && s.procs[j].state == ZOMBIE
    ensures s.procs[j].pid != 0
  {
    hide NoffOk;
    hide SlotsOk;
    hide TreeOk;
    hide LocksOk;
    hide PlaceOk;
    assert ZombieOk(s, j);
    if Reaped(s, j) {
      var t: nat :| t < |s.threads| && Reaps(s.threads[t].base, j);
      ReapHolds(s.threads[t].base, t, j);
      TestHolds(s, c, j);
      OneHolder(s, c, t, PLock(j));
    }
  }

  lemma ReapHolds(pc: Pc, t: nat, j: nat)
    requires Reaps(pc, j)
    ensures PLock(j) in HeldPc(pc, t) && pc.Wait? && !pc.wt.WtTest?
  {
  }

  lemma TestHolds(s: State, c: nat, j: nat)
    requires c < |s.cpus| && Self(s, c) < |s.threads| && s.threads[Self(s, c)] == Ctx(Wait(WtTest(j)), Idle)
    ensures PLock(j) in Held(Active(s, c), Self(s, c))
  {
  }

  lemma LogStays(s: State, c: nat, upd: Upd, s': State, t: nat)
    requires CoreOk(s) && PidsOk(s) && TreeOk(s) && LearnedOk(s) && ExitedOk(s) && Effect(s, upd, s') && Stays(s, c, upd, t)
    requires s'.threads[t].base == s.threads[t].base
    ensures ExitedThread(s', t)
  {
    LogStep(s, c, upd, s');
    ActorFacts(s, c);
    ActorLearned(s, c);
    ActorPid(s, c, upd);
    assert ExitedThread(s, t) && PidOk(s, t);
    hide CoreOk;
    hide Held;
    hide LinkOk;
    hide LearnedOk;
    hide TreeOk;
    hide PidsOk;
    hide ExitedOk;
  }

  lemma WaitLogs(s: State, c: nat, self: nat, pc: Pc, act: Act, upd: Upd, pc': Pc)
    requires c < |s.cpus| && self < |s.procs| && BaseStep(s, c, self, pc, act, upd, pc')
    ensures GotOf(pc').Some? && GotOf(pc) != GotOf(pc') ==>
      && pc.Wait? && pc.wt.WtTest? && pc.wt.j < |s.procs| && s.procs[pc.wt.j].state == ZOMBIE
      && GotOf(pc').value == Got(s.procs[pc.wt.j].pid, s.procs[pc.wt.j].xstate)
  {
    hide ForkStep;
    hide ExitStep;
    hide Elapsed;
    hide FreeStep;
    if pc.Fork? {
      ForkGoes(s, self, pc.fk, act, upd, pc');
    } else if pc.Exit? {
      ExitGoes(s, c, self, pc.ex, pc.status, act, upd, pc');
    }
  }

  lemma ExitLogs(s: State, c: nat, self: nat, pc: Pc, act: Act, upd: Upd, pc': Pc)
    requires c < |s.cpus| && self < |s.procs| && BaseStep(s, c, self, pc, act, upd, pc')
    requires pc'.Exit? && (pc'.ex.ExUnlk? || pc'.ex.ExSwitch? || pc'.ex.ExDead?)
    ensures pc.Exit? && pc.status == pc'.status && !upd.SetXstate? && !upd.SetPid?
    ensures pc.ex.ExZombie? || ((pc.ex.ExUnlk? || pc.ex.ExSwitch?) && !upd.SetState?)
  {
    hide ForkStep;
    hide Elapsed;
    hide FreeStep;
    hide WakeStep;
    if pc.Fork? {
      ForkGoes(s, self, pc.fk, act, upd, pc');
    }
  }

  lemma LogMoves(s: State, c: nat, act: Act, upd: Upd, next: Ctx, s': State)
    requires StepBy(s, c, act, upd, next, s') && CoreOk(s) && PidsOk(s) && TreeOk(s) && ZombiesOk(s) && LearnedOk(s) && ExitedOk(s)
    requires Effect(s, upd, s') && Moves(s, c, act, upd, next.base) && s'.threads[Self(s, c)] == next
    ensures ExitedThread(s', Self(s, c))
  {
    hide StepBy;
    Linked(s, c, act, upd, next, s');
    LogStep(s, c, upd, s');
    ActorLearned(s, c);
    PidStep(s, c, act, upd, next, s', Self(s, c));
    var self, pc, pc' := Self(s, c), s.threads[Self(s, c)].base, next.base;
    assert ExitedThread(s, self) && PidOk(s, self);
    WaitLogs(s, c, self, pc, act, upd, pc');
    if pc.Wait? && pc.wt.WtTest? && pc.wt.j < |s.procs| && s.procs[pc.wt.j].state == ZOMBIE {
      FoundPid(s, c, pc.wt.j);
      assert ExitedSlot(s, pc.wt.j);
    }
    if pc'.Exit? && (pc'.ex.ExUnlk? || pc'.ex.ExSwitch? || pc'.ex.ExDead?) {
      ExitLogs(s, c, self, pc, act, upd, pc');
    }
    hide CoreOk;
    hide LearnedOk;
    hide TreeOk;
    hide ZombiesOk;
    hide Grant;
    hide BaseStep;
  }

  lemma ExitedStep(s: State, c: nat, act: Act, upd: Upd, next: Ctx, s': State)
    requires StepBy(s, c, act, upd, next, s') && CoreOk(s) && PidsOk(s) && TreeOk(s) && ZombiesOk(s) && LearnedOk(s) && ExitedOk(s)
    ensures |s'.threads| == |s'.procs| && ExitedOk(s')
  {
    hide StepBy;
    hide CoreOk;
    hide PidsOk;
    hide TreeOk;
    hide ZombiesOk;
    hide LearnedOk;
    hide ExitedSlot;
    hide ExitedThread;
    hide Grant;
    hide Moves;
    SizesOk(s);
    Sizes(s, c, act, upd, next, s');
    Linked(s, c, act, upd, next, s');
    LogStep(s, c, upd, s');
    forall i: nat | i < |s'.procs| ensures ExitedSlot(s', i) {
      SlotLogged(s, c, upd, s', i);
    }
    forall t: nat | t < |s'.threads| ensures ExitedThread(s', t) {
      Cases(s, c, act, upd, next, s', t);
      if s'.threads[t].base == s.threads[t].base && Stays(s, c, upd, t) {
        LogStays(s, c, upd, s', t);
      } else if t == Self(s, c) && Moves(s, c, act, upd, next.base) && s'.threads[t] == next {
        LogMoves(s, c, act, upd, next, s');
      } else {
        ForkRetLogged(s', t);
      }
    }
  }

  lemma ForkRetLogged(s: State, t: nat)
    requires t < |s.threads| == |s.procs| && s.threads[t].base == ForkRet
    ensures ExitedThread(s, t)
  {
  }

  // ----- who is marked as killed, and what an UNUSED slot holds -----

  /** freeproc of slot `i` has cleared the pid and not yet the mark. */
  predicate Clearing(pc: Pc, i: nat) {
    || (pc.Wait? && pc.wt.WtFree? && pc.wt.j == i && (pc.wt.f.FrParent? || pc.wt.f.FrChan? || pc.wt.f.FrKilled?))
    || (pc.Fork? && pc.fk.FkUndo? && pc.fk.i == i && (pc.fk.f.FrParent? || pc.fk.f.FrChan? || pc.fk.f.FrKilled?))
  }

  ghost predicate BeingCleared(s: State, i: nat) {
    exists t: nat :: t < |s.threads| && Clearing(s.threads[t].base, i)
  }

  /** allocproc has given slot `i` its pid and not yet made it USED. */
  ghost predicate BeingNumbered(s: State, i: nat) {
    exists t: nat :: t < |s.threads| && s.threads[t].base == Fork(FkUsed(i))
  }

  ghost predicate MarkedSlot(s: State, i: nat)
    requires i < |s.procs|
  {
    var p := s.procs[i];
    && (p.killed ==> p.pid in s.marked || 0 in s.marked || BeingCleared(s, i))
    && (p.state == UNUSED ==> p.chan == NoChan && p.xstate == 0 && (p.pid == 0 || BeingNumbered(s, i)))
  }

  ghost predicate MarksOk(s: State) {
    forall i: nat | i < |s.procs| :: MarkedSlot(s, i)
  }

  /** A thread in wait or fork is not the one that fork prepares. */
  lemma NotPrepared(s: State, c: nat, upd: Upd, t: nat)
    requires CoreOk(s) && c < |s.cpus| && Grant(s, Active(s, c), Self(s, c), upd) && t < |s.threads|
    requires s.threads[t].base.Wait? || s.threads[t].base.Fork?
    ensures upd != SetContext(t)
  {
    hide LocksOk;
    hide NoffOk;
    hide SlotsOk;
    hide Grant;
    Busy(s, t);
    hide CoreOk;
    if upd == SetContext(t) {
      ContextSlot(s, c, upd);
    }
  }

  lemma ClearingStays(s: State, c: nat, act: Act, upd: Upd, next: Ctx, s': State, t: nat, i: nat)
    requires StepBy(s, c, act, upd, next, s') && CoreOk(s) && t < |s.threads| == |s'.threads| && Clearing(s.threads[t].base, i)
    ensures Clearing(s'.threads[t].base, i) || upd == SetKilled(i, false)
  {
    hide StepBy;
    Cases(s, c, act, upd, next, s', t);
    NotPrepared(s, c, upd, t);
    hide CoreOk;
    hide Grant;
    if t == Self(s, c) && Moves(s, c, act, upd, next.base) && s'.threads[t] == next {
      ClearingMoves(s, c, t, s.threads[t].base, act, upd, next.base, i);
    }
  }

  lemma ClearingMoves(s: State, c: nat, self: nat, pc: Pc, act: Act, upd: Upd, pc': Pc, i: nat)
    requires c < |s.cpus| && self < |s.procs| && BaseStep(s, c, self, pc, act, upd, pc') && Clearing(pc, i)
    ensures Clearing(pc', i) || upd == SetKilled(i, false)
  {
  }

  lemma NumberingStays(s: State, c: nat, act: Act, upd: Upd, next: Ctx, s': State, t: nat, i: nat)
    requires StepBy(s, c, act, upd, next, s') && CoreOk(s) && t < |s.threads| == |s'.threads| && s.threads[t].base == Fork(FkUsed(i))
    ensures s'.threads[t].base == Fork(FkUsed(i)) || upd == SetState(i, USED)
  {
    hide StepBy;
    Cases(s, c, act, upd, next, s', t);
    NotPrepared(s, c, upd, t);
    hide CoreOk;
    hide Grant;
  }

  /** The slot that freeproc clears is a zombie or in use, so not the one that allocproc numbers. */
  lemma ClearedInUse(s: State, i: nat)
    requires CoreOk(s) && i < |s.procs| && BeingCleared(s, i)
    ensures s.procs[i].state == ZOMBIE || s.procs[i].state == USED
  {
    hide LocksOk;
    hide NoffOk;
    var t: nat :| t < |s.threads| && Clearing(s.threads[t].base, i);
    assert SlotOk(s, t);
  }

  /** allocproc assigns a pid to a slot without one. */
  lemma NumbersOnce(s: State, c: nat, i: nat, pid: nat)
    requires CoreOk(s) && c < |s.cpus| && Self(s, c) < |s.threads| && Active(s, c) == Ctx(Fork(FkSetPid(i, pid)), Idle)
    ensures !BeingNumbered(s, i)
  {
    hide NoffOk;
    hide SlotsOk;
    if BeingNumbered(s, i) {
      var t: nat :| t < |s.threads| && s.threads[t].base == Fork(FkUsed(i));
      NumberHolds(s, c, i, pid, t);
      hide LocksOk;
      hide PlaceOk;
      OneHolder(s, c, t, PLock(i));
    }
  }

  lemma NumberHolds(s: State, c: nat, i: nat, pid: nat, t: nat)
    requires c < |s.cpus| && Active(s, c) == Ctx(Fork(FkSetPid(i, pid)), Idle)
    ensures PLock(i) in Held(Active(s, c), Self(s, c)) && PLock(i) in HeldPc(Fork(FkUsed(i)), t)
  {
  }

  /** After a step that does not touch these fields of slot `i`. */
  lemma MarkKept(s: State, c: nat, act: Act, upd: Upd, next: Ctx, s': State, i: nat)
    requires StepBy(s, c, act, upd, next, s') && CoreOk(s) && i < |s.procs| == |s'.procs| && |s'.threads| == |s.threads| && MarkedSlot(s, i)
    requires !upd.SetKilled? || upd.i != i
    requires s'.procs[i].killed == s.procs[i].killed && s'.procs[i].pid == s.procs[i].pid
    requires s'.procs[i].state == UNUSED ==> s.procs[i].state == UNUSED && SameSlot(s.procs[i], s'.procs[i])
    requires s.marked <= s'.marked && upd != SetState(i, USED)
    ensures MarkedSlot(s', i)
  {
    hide StepBy;
    hide CoreOk;
    hide Clearing;
    if BeingCleared(s, i) {
      var t: nat :| t < |s.threads| && Clearing(s.threads[t].base, i);
      ClearingStays(s, c, act, upd, next, s', t, i);
    }
    if BeingNumbered(s, i) {
      var t: nat :| t < |s.threads| && s.threads[t].base == Fork(FkUsed(i));
      NumberingStays(s, c, act, upd, next, s', t, i);
    }
  }

  lemma MarkPid(s: State, c: nat, act: Act, upd: Upd, next: Ctx, s': State, i: nat)
    requires StepBy(s, c, act, upd, next, s') && CoreOk(s) && TreeOk(s) && i < |s.procs| == |s'.procs| && |s'.threads| == |s.threads| && MarkedSlot(s, i)
    requires upd.SetPid? && upd.i == i
    ensures MarkedSlot(s', i)
  {
    hide StepBy;
    Linked(s, c, act, upd, next, s');
    ActorFacts(s, c);
    PidMover(s, c, act, upd, next, s');
    hide CoreOk;
    hide TreeOk;
    var self := Self(s, c);
    if BeingCleared(s, i) {
      ClearedInUse(s, i);
    }
    if Active(s, c) == Ctx(Fork(FkSetPid(i, upd.pid)), Idle) {
      NumbersOnce(s, c, i, upd.pid);
      assert s'.threads[self].base == Fork(FkUsed(i));
    } else {
      assert Clearing(s'.threads[self].base, i);
    }
  }

  /** Where the code goes on after it has changed a pid. */
  lemma PidMover(s: State, c: nat, act: Act, upd: Upd, next: Ctx, s': State)
    requires StepBy(s, c, act, upd, next, s') && CoreOk(s) && upd.SetPid?
    ensures Self(s, c) < |s.threads| && Self(s, c) < |s'.threads| && s'.threads[Self(s, c)] == next
    ensures Active(s, c) == Ctx(Fork(FkSetPid(upd.i, upd.pid)), Idle) ==> next.base == Fork(FkUsed(upd.i))
    ensures Active(s, c) != Ctx(Fork(FkSetPid(upd.i, upd.pid)), Idle) ==> upd.pid == 0 && Clearing(next.base, upd.i)
    ensures Active(s, c) == Ctx(Fork(FkSetPid(upd.i, upd.pid)), Idle) || FreeingAt(Active(s, c), upd.i, FrPid)
  {
    hide StepBy;
    Linked(s, c, act, upd, next, s');
    PidActor(s, c, upd);
    ThreadCpu(s, c, act, upd, next, s');
    NextIs(s, c, act, upd, next, s');
    hide CoreOk;
    hide Grant;
    PidNext(s, c, act, upd, next);
  }

  lemma PidActor(s: State, c: nat, upd: Upd)
    requires CoreOk(s) && c < |s.cpus| && Grant(s, Active(s, c), Self(s, c), upd) && upd.SetPid?
    ensures Self(s, c) < |s.threads|
    ensures Active(s, c) == Ctx(Fork(FkSetPid(upd.i, upd.pid)), Idle) || (upd.pid == 0 && FreeingAt(Active(s, c), upd.i, FrPid))
  {
    hide LocksOk;
    hide NoffOk;
    hide SlotsOk;
    hide Held;
    assert CpuOk(s, c);
  }

  lemma PidNext(s: State, c: nat, act: Act, upd: Upd, next: Ctx)
    requires c < |s.cpus| && Next(s, c, act, upd, next) && upd.SetPid?
    ensures Active(s, c) == Ctx(Fork(FkSetPid(upd.i, upd.pid)), Idle) ==> next.base == Fork(FkUsed(upd.i))
    ensures FreeingAt(Active(s, c), upd.i, FrPid) ==> Clearing(next.base, upd.i)
  {
    hide Self;
    hide Active;
  }

  lemma MarkStep(s: State, c: nat, act: Act, upd: Upd, next: Ctx, s': State, i: nat)
    requires StepBy(s, c, act, upd, next, s') && CoreOk(s) && TreeOk(s) && LearnedOk(s) && MarksOk(s)
    requires i < |s.procs| == |s'.procs| && |s'.threads| == |s.threads|
    ensures MarkedSlot(s', i)
  {
    hide StepBy;
    Linked(s, c, act, upd, next, s');
    ActorFacts(s, c);
    ActorLearned(s, c);
    assert MarkedSlot(s, i);
    if upd.SetPid? && upd.i == i {
      MarkPid(s, c, act, upd, next, s', i);
    } else if upd.SetKilled? && upd.i == i {
      MarkKilled(s, c, act, upd, next, s', i);
    } else if upd.SetState? && upd.i == i && (upd.st == UNUSED || upd.st == USED) {
      MarkState(s, c, act, upd, next, s', i);
    } else {
      SlotUntouched(s, c, upd, i);
      MarkKept(s, c, act, upd, next, s', i);
    }
  }

  lemma SlotUntouched(s: State, c: nat, upd: Upd, i: nat)
    requires CoreOk(s) && TreeOk(s) && c < |s.cpus| && Grant(s, Active(s, c), Self(s, c), upd) && i < |s.procs|
    requires !(upd.SetPid? && upd.i == i) && !(upd.SetKilled? && upd.i == i)
    requires !(upd.SetState? && upd.i == i && (upd.st == UNUSED || upd.st == USED))
    ensures var p, p' := s.procs[i], ProcsAfter(s.procs, upd)[i];
      p'.killed == p.killed && p'.pid == p.pid && (p'.state == UNUSED ==> p.state == UNUSED && SameSlot(p, p'))
  {
    ActorFacts(s, c);
    hide CoreOk;
    hide Held;
    hide LinkOk;
    hide TreeThread;
  }

  lemma MarkKilled(s: State, c: nat, act: Act, upd: Upd, next: Ctx, s': State, i: nat)
    requires StepBy(s, c, act, upd, next, s') && CoreOk(s) && i < |s.procs| == |s'.procs| && |s'.threads| == |s.threads| && MarkedSlot(s, i)
    requires upd.SetKilled? && upd.i == i
    ensures MarkedSlot(s', i)
  {
    hide StepBy;
    Linked(s, c, act, upd, next, s');
    hide CoreOk;
    hide Grant;
    if BeingNumbered(s, i) {
      var t: nat :| t < |s.threads| && s.threads[t].base == Fork(FkUsed(i));
      NumberingStays(s, c, act, upd, next, s', t, i);
    }
  }

  lemma MarkState(s: State, c: nat, act: Act, upd: Upd, next: Ctx, s': State, i: nat)
    requires StepBy(s, c, act, upd, next, s') && CoreOk(s) && TreeOk(s) && i < |s.procs| == |s'.procs| && |s'.threads| == |s.threads| && MarkedSlot(s, i)
    requires CtxLearned(s.procs, s.init, Active(s, c), Self(s, c))
    requires upd.SetState? && upd.i == i && (upd.st == UNUSED || upd.st == USED)
    ensures MarkedSlot(s', i)
  {
    hide StepBy;
    Linked(s, c, act, upd, next, s');
    ActorFacts(s, c);
    if BeingCleared(s, i) {
      var t: nat :| t < |s.threads| && Clearing(s.threads[t].base, i);
      ClearingStays(s, c, act, upd, next, s', t, i);
    }
    hide CoreOk;
    hide TreeThread;
    hide LinkOk;
    hide Clearing;
    hide Held;
  }

  lemma MarksStep(s: State, c: nat, act: Act, upd: Upd, next: Ctx, s': State)
    requires StepBy(s, c, act, upd, next, s') && CoreOk(s) && TreeOk(s) && LearnedOk(s) && MarksOk(s)
    ensures MarksOk(s')
  {
    hide StepBy;
    hide CoreOk;
    hide TreeOk;
    hide LearnedOk;
    hide MarkedSlot;
    Sizes(s, c, act, upd, next, s');
    forall i: nat | i < |s'.procs| ensures MarkedSlot(s', i) {
      MarkStep(s, c, act, upd, next, s', i);
    }
  }
}
