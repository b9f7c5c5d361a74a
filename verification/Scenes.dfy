/**
 * Two runs on one CPU and two slots, step by step: init forks a child and sleeps in wait until the
 * child's exit wakes it; and kill(0) marks a slot before a process is born in it.
 */
module Scenes {
  import opened ProcTypes
  import opened Machine

  // Which locks are held, of those the runs take.
  datatype Locks = Locks(wait: bool, pid: bool, p0: bool, p1: bool)

  const NONE: Locks := Locks(false, false, false, false)

  // What the runs need to know of a state: both slots, both threads, the scheduler, c->proc, the locks.
  datatype Scene = Scene(
    a: Proc, b: Proc, t0: Pc, t1: Pc, sched: SchedPc, proc: Option<nat>, held: Locks, nextpid: nat,
    two: bool)                      // pid 2 is marked as killed

  ghost predicate In(s: State, x: Scene) {
    && s.procs == [x.a, x.b] && s.init == 0 && s.nextpid == x.nextpid
    && (WaitLock in s.held <==> x.held.wait) && (PidLock in s.held <==> x.held.pid)
    && (PLock(0) in s.held <==> x.held.p0) && (PLock(1) in s.held <==> x.held.p1)
    && s.threads == [Ctx(x.t0, Idle), Ctx(x.t1, Idle)]
    && |s.cpus| == 1 && s.cpus[0].ctx == Ctx(Sched(x.sched), Idle) && s.cpus[0].proc == x.proc
    && (2 in s.marked <==> x.two)
  }

  // ----- a step, seen in the scene -----

  function Put(held: Locks, act: Act): Locks {
    match act
    case Nop => held
    case Acquire(l) => PutLock(held, l, true)
    case Release(l) => PutLock(held, l, false)
  }

  function PutLock(held: Locks, l: Lock, on: bool): Locks {
    match l
    case WaitLock => held.(wait := on)
    case PidLock => held.(pid := on)
    case PLock(p) => if p == 0 then held.(p0 := on) else if p == 1 then held.(p1 := on) else held
    case _ => held
  }

  /** acquire finds the lock free. */
  predicate Free(x: Scene, act: Act) {
    act.Acquire? ==>
      match act.l
      case WaitLock => !x.held.wait
      case PidLock => !x.held.pid
      case PLock(p) => (p == 0 && !x.held.p0) || (p == 1 && !x.held.p1)
      case _ => false
  }

  /** Slot `i` after a step. */
  function Slot(p: Proc, i: nat, upd: Upd): Proc {
    match upd
    case SetState(j, st) => if j == i then p.(state := st) else p
    case SetChan(j, ch) => if j == i then p.(chan := ch) else p
    case SetKilled(j, k) => if j == i then p.(killed := k) else p
    case SetXstate(j, v) => if j == i then p.(xstate := v) else p
    case SetPid(j, pid) => if j == i then p.(pid := pid) else p
    case SetParent(j, q) => if j == i then p.(parent := q) else p
    case _ => p
  }

  /** The shared variables after a step. */
  function Shared(x: Scene, act: Act, upd: Upd): Scene {
    x.(a := Slot(x.a, 0, upd), b := Slot(x.b, 1, upd), held := Put(x.held, act),
       nextpid := if upd.BumpPid? then x.nextpid + 1 else x.nextpid,
       proc := if upd.SetCpuProc? then upd.q else x.proc,
       two := x.two || (upd.SetKilled? && upd.k && ((upd.i == 0 && x.a.pid == 2) || (upd.i == 1 && x.b.pid == 2))))
  }

  /** The slot whose thread the CPU executes, 2 for the scheduler, */
  function Me(x: Scene): nat { if x.sched == SchIn(0) then 0 else if x.sched == SchIn(1) then 1 else 2 }

  /** and its program point. */
  function Code(x: Scene): Pc { if Me(x) == 0 then x.t0 else if Me(x) == 1 then x.t1 else Sched(x.sched) }

  /** The scene once the CPU is at `pc`, */
  function Goto(x: Scene, pc: Pc): Scene {
    if Me(x) == 0 then x.(t0 := pc) else if Me(x) == 1 then x.(t1 := pc) else if pc.Sched? then x.(sched := pc.q) else x
  }

  /** after a step. */
  function Then(x: Scene, act: Act, upd: Upd, pc: Pc): Scene { Goto(Shared(x, act, upd), pc) }

  /** The state of a scene, as far as a step of the code depends on it. */
  function View(x: Scene): State {
    State([x.a, x.b], [Ctx(x.t0, Idle), Ctx(x.t1, Idle)], [Cpu(Ctx(Sched(x.sched), Idle), x.proc, 0, false, false)],
          map[], x.nextpid, 0, 0, map[], {})
  }

  /** A change that the scene records. */
  predicate Plain(x: Scene, upd: Upd) {
    !upd.SwitchOut? && (upd.SetContext? ==> upd.i == 1 && Me(x) == 0 && x.t1 == ForkRet)
  }

  // ----- paths -----

  /** `s` is reached from `z`. */
  ghost predicate Path(z: State, s: State) {
    exists states: seq<State> :: IsPath(states) && states[0] == z && states[|states| - 1] == s
  }

  ghost predicate IsPath(states: seq<State>) {
    |states| > 0 && forall i | 0 < i < |states| :: Step(states[i - 1], states[i])
  }

  lemma PathStart(z: State)
    ensures Path(z, z)
  {
    hide Step;
    assert IsPath([z]) && [z][0] == z && [z][|[z]| - 1] == z;
  }

  lemma PathStep(z: State, s: State, s': State)
    requires Path(z, s) && Step(s, s')
    ensures Path(z, s')
  {
    hide Step;
    var states: seq<State> :| IsPath(states) && states[0] == z && states[|states| - 1] == s;
    var longer := states + [s'];
    forall i | 0 < i < |longer| ensures Step(longer[i - 1], longer[i]) {
      if i < |states| {
        assert Step(states[i - 1], states[i]);
      }
    }
    assert IsPath(longer) && longer[0] == z && longer[|longer| - 1] == s';
  }

  lemma PathReachable(z: State, s: State)
    requires Init(z) && Path(z, s)
    ensures Reachable(s)
  {
    hide Step;
    var states: seq<State> :| IsPath(states) && states[0] == z && states[|states| - 1] == s;
    assert Run(states);
  }

  /** `s` is reached from `z` and is as the scene says. */
  ghost predicate At(z: State, s: State, x: Scene) {
    Path(z, s) && In(s, x)
  }

  lemma Takes(z: State, s: State, act: Act, upd: Upd, next: Ctx)
    requires Path(z, s) && |s.cpus| == 1 && Next(s, 0, act, upd, next) && (act.Acquire? ==> act.l !in s.held)
    ensures Path(z, Apply(s, 0, act, upd, next))
  {
    hide Path;
    hide Next;
    hide Apply;
    assert StepBy(s, 0, act, upd, next, Apply(s, 0, act, upd, next));
    PathStep(z, s, Apply(s, 0, act, upd, next));
  }

  lemma SlotsAfter(a: Proc, b: Proc, upd: Upd)
    ensures ProcsAfter([a, b], upd) == [Slot(a, 0, upd), Slot(b, 1, upd)]
  {
  }

  lemma LocksAfter(s: State, x: Scene, act: Act)
    requires In(s, x)
    ensures var h, held := HeldAfter(s.held, 0, act), Put(x.held, act);
      && (WaitLock in h <==> held.wait) && (PidLock in h <==> held.pid)
      && (PLock(0) in h <==> held.p0) && (PLock(1) in h <==> held.p1)
  {
  }

  lemma FreeLock(s: State, x: Scene, act: Act)
    requires In(s, x) && Free(x, act)
    ensures act.Acquire? ==> act.l !in s.held
  {
  }

  lemma Executes(s: State, x: Scene)
    requires In(s, x)
    ensures |s.cpus| == 1 && Self(s, 0) == Me(x) && Active(s, 0) == Ctx(Code(x), Idle)
  {
  }

  lemma ThreadsThen(s: State, x: Scene, upd: Upd, pc: Pc)
    requires In(s, x) && Plain(x, upd) && (Me(x) == 2 ==> pc.Sched?) && |s.cpus| == 1
    ensures ThreadsAfter(s, 0, upd, Ctx(pc, Idle)) == [Ctx(Goto(x, pc).t0, Idle), Ctx(Goto(x, pc).t1, Idle)]
  {
    Executes(s, x);
    hide Self;
  }

  lemma CpuThen(s: State, x: Scene, act: Act, upd: Upd, pc: Pc)
    requires In(s, x) && Plain(x, upd) && (Me(x) == 2 ==> pc.Sched?) && |s.cpus| == 1
    ensures var cpu := CpuAfter(s, 0, act, upd, Ctx(pc, Idle));
      cpu.ctx == Ctx(Sched(Goto(x, pc).sched), Idle) && cpu.proc == if upd.SetCpuProc? then upd.q else x.proc
  {
    Executes(s, x);
    hide Self;
  }

  lemma MarksThen(s: State, x: Scene, upd: Upd)
    requires In(s, x)
    ensures 2 in MarkedAfter(s, upd) <==> Shared(x, Nop, upd).two
  {
  }

  lemma ThenIs(x: Scene, act: Act, upd: Upd, pc: Pc)
    requires Me(x) == 2 ==> pc.Sched?
    ensures var y, g := Then(x, act, upd, pc), Goto(x, pc);
      && y.a == Slot(x.a, 0, upd) && y.b == Slot(x.b, 1, upd) && y.t0 == g.t0 && y.t1 == g.t1 && y.sched == g.sched
      && y.held == Put(x.held, act) && y.nextpid == (if upd.BumpPid? then x.nextpid + 1 else x.nextpid)
      && y.proc == (if upd.SetCpuProc? then upd.q else x.proc) && y.two == Shared(x, Nop, upd).two
  {
    hide Slot;
    hide Put;
  }

  lemma SceneAfter(s: State, x: Scene, act: Act, upd: Upd, pc: Pc)
    requires In(s, x) && Plain(x, upd) && (Me(x) == 2 ==> pc.Sched?)
    ensures In(Apply(s, 0, act, upd, Ctx(pc, Idle)), Then(x, act, upd, pc))
  {
    SlotsAfter(x.a, x.b, upd);
    LocksAfter(s, x, act);
    ThreadsThen(s, x, upd, pc);
    CpuThen(s, x, act, upd, pc);
    MarksThen(s, x, upd);
    ThenIs(x, act, upd, pc);
    hide Then;
    hide Goto;
    hide Shared;
    hide Me;
    hide MarkedAfter;
    hide ProcsAfter;
    hide Slot;
    hide HeldAfter;
    hide Put;
    hide ThreadsAfter;
    hide CpuAfter;
  }

  /** One step of the run. */
  lemma Moves(z: State, s: State, x: Scene, act: Act, upd: Upd, pc: Pc) returns (s': State, x': Scene)
    requires At(z, s, x) && Plain(x, upd) && Free(x, act) && (Me(x) == 2 ==> pc.Sched?)
    requires |s.cpus| == 1 && BaseStep(s, 0, Me(x), Code(x), act, upd, pc)
    ensures x' == Then(x, act, upd, pc) && At(z, s', x')
  {
    x' := Then(x, act, upd, pc);
    s' := Apply(s, 0, act, upd, Ctx(pc, Idle));
    hide Path;
    FreeLock(s, x, act);
    Executes(s, x);
    SceneAfter(s, x, act, upd, pc);
    hide BaseStep;
    hide Apply;
    hide Free;
    hide Shared;
    hide Active;
    hide Self;
    hide In;
    Takes(z, s, act, upd, Ctx(pc, Idle));
  }

  /** A step of fork, */
  lemma Forks(z: State, s: State, x: Scene, act: Act, upd: Upd, pc: Pc) returns (s': State, x': Scene)
    requires At(z, s, x) && x.sched == SchIn(0) && x.t0.Fork? && Plain(x, upd)
    requires Free(x, act) && ForkStep(View(x), 0, x.t0.fk, act, upd, pc)
    ensures x' == Shared(x, act, upd).(t0 := pc) && At(z, s', x')
  {
    hide Path;
    assert BaseStep(s, 0, 0, x.t0, act, upd, pc) by {
      hide Free;
      hide Shared;
    }
    s', x' := Moves(z, s, x, act, upd, pc);
  }

  /** of wait, */
  lemma Waits(z: State, s: State, x: Scene, act: Act, upd: Upd, pc: Pc) returns (s': State, x': Scene)
    requires At(z, s, x) && x.sched == SchIn(0) && x.t0.Wait? && Plain(x, upd)
    requires Free(x, act) && WaitStep(View(x), 0, x.t0.wt, act, upd, pc)
    ensures x' == Shared(x, act, upd).(t0 := pc) && At(z, s', x')
  {
    hide Path;
    assert BaseStep(s, 0, 0, x.t0, act, upd, pc) by {
      hide Free;
      hide Shared;
    }
    s', x' := Moves(z, s, x, act, upd, pc);
  }

  /** of sleep, */
  lemma Sleeps(z: State, s: State, x: Scene, act: Act, upd: Upd, pc: Pc) returns (s': State, x': Scene)
    requires At(z, s, x) && x.sched == SchIn(0) && x.t0.Sleep? && Plain(x, upd)
    requires Free(x, act) && SleepStep(View(x), 0, 0, x.t0.why, x.t0.sl, act, upd, pc)
    ensures x' == Shared(x, act, upd).(t0 := pc) && At(z, s', x')
  {
    hide Path;
    assert BaseStep(s, 0, 0, x.t0, act, upd, pc) by {
      hide Free;
      hide Shared;
    }
    s', x' := Moves(z, s, x, act, upd, pc);
  }

  /** of kill, */
  lemma Kills(z: State, s: State, x: Scene, act: Act, upd: Upd, pc: Pc) returns (s': State, x': Scene)
    requires At(z, s, x) && x.sched == SchIn(0) && x.t0.Kill? && Plain(x, upd)
    requires Free(x, act) && KillStep(View(x), x.t0.kl, act, upd, pc)
    ensures x' == Shared(x, act, upd).(t0 := pc) && At(z, s', x')
  {
    hide Path;
    assert BaseStep(s, 0, 0, x.t0, act, upd, pc) by {
      hide Free;
      hide Shared;
    }
    s', x' := Moves(z, s, x, act, upd, pc);
  }

  /** of exit, */
  lemma Exits(z: State, s: State, x: Scene, act: Act, upd: Upd, pc: Pc) returns (s': State, x': Scene)
    requires At(z, s, x) && x.sched == SchIn(1) && x.t1.Exit? && Plain(x, upd)
    requires Free(x, act) && ExitStep(View(x), 0, 1, x.t1.ex, x.t1.status, act, upd, pc)
    ensures x' == Shared(x, act, upd).(t1 := pc) && At(z, s', x')
  {
    hide Path;
    assert BaseStep(s, 0, 1, x.t1, act, upd, pc) by {
      hide Free;
      hide Shared;
    }
    s', x' := Moves(z, s, x, act, upd, pc);
  }

  /** of the scheduler. */
  lemma Schedules(z: State, s: State, x: Scene, act: Act, upd: Upd, q: SchedPc) returns (s': State, x': Scene)
    requires At(z, s, x) && !x.sched.SchIn? && Plain(x, upd) && !upd.SetContext?
    requires Free(x, act) && SchedStep(View(x), x.sched, act, upd, Sched(q))
    ensures x' == Shared(x, act, upd).(sched := q) && At(z, s', x')
  {
    hide Path;
    assert BaseStep(s, 0, 2, Sched(x.sched), act, upd, Sched(q)) by {
      hide Free;
      hide Shared;
    }
    s', x' := Moves(z, s, x, act, upd, Sched(q));
  }

  /** init enters the kernel, */
  lemma Enters(z: State, s: State, x: Scene, pc: Pc) returns (s': State, x': Scene)
    requires At(z, s, x) && x.sched == SchIn(0) && x.t0 == User
    requires pc == Fork(FkAt(0)) || pc == Wait(WtLock) || pc == Kill(KlAt(0, 0, false))
    ensures x' == x.(t0 := pc) && At(z, s', x')
  {
    hide Path;
    assert BaseStep(s, 0, 0, User, Nop, NoUpd, pc);
    s', x' := Moves(z, s, x, Nop, NoUpd, pc);
  }

  /** and the child calls exit(7). */
  lemma EntersExit(z: State, s: State, x: Scene) returns (s': State, x': Scene)
    requires At(z, s, x) && x.sched == SchIn(1) && x.t1 == User
    ensures x' == x.(t1 := Exit(ExLock, 7)) && At(z, s', x')
  {
    hide Path;
    assert BaseStep(s, 0, 1, User, Nop, NoUpd, ExitCheck(false, 7));
    s', x' := Moves(z, s, x, Nop, NoUpd, ExitCheck(false, 7));
    assert BaseStep(s', 0, 1, ExitCheck(false, 7), Nop, NoUpd, Exit(ExLock, 7));
    s', x' := Moves(z, s', x', Nop, NoUpd, Exit(ExLock, 7));
  }

  /** forkret. */
  lemma Returns(z: State, s: State, x: Scene) returns (s': State, x': Scene)
    requires At(z, s, x) && Me(x) < 2 && Code(x) == ForkRet
    ensures x' == Then(x, Release(PLock(Me(x))), SetIntr(true), User) && At(z, s', x')
  {
    hide Path;
    assert BaseStep(s, 0, Me(x), ForkRet, Release(PLock(Me(x))), SetIntr(true), User);
    s', x' := Moves(z, s, x, Release(PLock(Me(x))), SetIntr(true), User);
  }

  /** swtch to the scheduler, from sleep */
  lemma LeavesSleep(z: State, s: State, x: Scene) returns (s': State, x': Scene, b: bool)
    requires At(z, s, x) && x.sched == SchIn(0) && x.t0 == Sleep(InWait, SlSwitch)
    ensures x' == x.(t0 := Sleep(InWait, SlResume(b)), sched := SchClear(0)) && At(z, s', x')
  {
    hide Path;
    b := s.cpus[0].intena;
    var pc := Sleep(InWait, SlResume(b));
    x' := x.(t0 := pc, sched := SchClear(0));
    s' := Apply(s, 0, Nop, SwitchOut(0, Ctx(pc, Idle)), Ctx(pc, Idle));
    Takes(z, s, Nop, SwitchOut(0, Ctx(pc, Idle)), Ctx(pc, Idle));
  }

  /** and at the end of exit. */
  lemma LeavesExit(z: State, s: State, x: Scene) returns (s': State, x': Scene)
    requires At(z, s, x) && x.sched == SchIn(1) && x.t1 == Exit(ExSwitch, 7)
    ensures x' == x.(t1 := Exit(ExDead, 7), sched := SchClear(1)) && At(z, s', x')
  {
    hide Path;
    var pc := Exit(ExDead, 7);
    x' := x.(t1 := pc, sched := SchClear(1));
    s' := Apply(s, 0, Nop, SwitchOut(1, Ctx(pc, Idle)), Ctx(pc, Idle));
    Takes(z, s, Nop, SwitchOut(1, Ctx(pc, Idle)), Ctx(pc, Idle));
  }

  // ----- the two processes at the stages of the runs -----

  /** init, in slot 0. */
  function InitProc(st: ProcState, ch: Chan): Proc { Proc(st, ch, false, 0, 1, None) }

  /** Slot 1 as boot leaves it; `k` says whether it is marked as killed. */
  function Blank(k: bool): Proc { Proc(UNUSED, NoChan, k, 0, 0, None) }

  /** The child, in slot 1. */
  function Kid(st: ProcState, k: bool, v: int): Proc { Proc(st, NoChan, k, v, 2, Some(0)) }

  /** The CPU executes init, at `t0`. */
  function Running(kid: Proc, t0: Pc, t1: Pc, held: Locks, nextpid: nat): Scene {
    Scene(InitProc(RUNNING, NoChan), kid, t0, t1, SchIn(0), Some(0), held, nextpid, false)
  }

  /** init is in sleep, in state `st`; the scheduler is at `q`. */
  function Asleep(b: bool, st: ProcState, kid: Proc, t1: Pc, q: SchedPc, proc: Option<nat>, held: Locks): Scene {
    Scene(InitProc(st, OnProc(0)), kid, Sleep(InWait, SlResume(b)), t1, q, proc, held, 3, false)
  }

  function Boot(): Scene {
    Scene(InitProc(RUNNABLE, NoChan), Blank(false), ForkRet, ForkRet, SchTop, None, NONE, 2, false)
  }

  lemma Start() returns (s: State)
    ensures Init(s) && At(s, s, Boot())
  {
    s := State([InitProc(RUNNABLE, NoChan), Blank(false)], [Ctx(ForkRet, Idle), Ctx(ForkRet, Idle)],
               [Cpu(Ctx(Sched(SchTop), Idle), None, 0, false, false)], map[], 2, 0, 0, map[], {});
    PathStart(s);
  }

  /** The scheduler picks init */
  lemma PicksInit(z: State, s: State, x: Scene) returns (s': State, x': Scene)
    requires At(z, s, x) && x == Boot()
    ensures At(z, s', x') && x' == Scene(InitProc(RUNNING, NoChan), Blank(false), ForkRet, ForkRet, SchCpu(0), None, NONE.(p0 := true), 2, false)
  {
    hide At;
    s', x' := Schedules(z, s, x, Nop, SetIntr(true), SchAt(0));
    s', x' := Schedules(z, s', x', Acquire(PLock(0)), NoUpd, SchTest(0));
    s', x' := Schedules(z, s', x', Nop, SetState(0, RUNNING), SchCpu(0));
  }

  /** and brings it to user code. */
  lemma InitRuns(z: State, s: State, x: Scene) returns (s': State, x': Scene)
    requires At(z, s, x) && x == Scene(InitProc(RUNNING, NoChan), Blank(false), ForkRet, ForkRet, SchCpu(0), None, NONE.(p0 := true), 2, false)
    ensures At(z, s', x') && x' == Running(Blank(false), User, ForkRet, NONE, 2)
  {
    hide At;
    s', x' := Schedules(z, s, x, Nop, SetCpuProc(Some(0)), SchGo(0));
    s', x' := Schedules(z, s', x', Nop, NoUpd, SchIn(0));
    s', x' := Returns(z, s', x');
  }

  /** init calls kill(0), which passes over init */
  lemma KillPasses(z: State, s: State, x: Scene) returns (s': State, x': Scene)
    requires At(z, s, x) && x == Running(Blank(false), User, ForkRet, NONE, 2)
    ensures At(z, s', x') && x' == Running(Blank(false), Kill(KlAt(1, 0, false)), ForkRet, NONE, 2)
  {
    hide At;
    s', x' := Enters(z, s, x, Kill(KlAt(0, 0, false)));
    s', x' := Kills(z, s', x', Acquire(PLock(0)), NoUpd, Kill(KlTest(0, 0, false)));
    s', x' := Kills(z, s', x', Nop, NoUpd, Kill(KlSkip(0, 0, false)));
    s', x' := Kills(z, s', x', Release(PLock(0)), NoUpd, Kill(KlAt(1, 0, false)));
  }

  /** and finds pid 0 in the UNUSED slot 1. */
  lemma KillFinds(z: State, s: State, x: Scene) returns (s': State, x': Scene)
    requires At(z, s, x) && x == Running(Blank(false), Kill(KlAt(1, 0, false)), ForkRet, NONE, 2)
    ensures At(z, s', x') && x' == Running(Blank(false), Kill(KlSet(1, 0)), ForkRet, NONE.(p1 := true), 2)
  {
    hide At;
    s', x' := Kills(z, s, x, Acquire(PLock(1)), NoUpd, Kill(KlTest(1, 0, false)));
    s', x' := Kills(z, s', x', Nop, NoUpd, Kill(KlSet(1, 0)));
  }

  /** It marks the slot */
  lemma KillMarksSlot(z: State, s: State, x: Scene) returns (s': State, x': Scene)
    requires At(z, s, x) && x == Running(Blank(false), Kill(KlSet(1, 0)), ForkRet, NONE.(p1 := true), 2)
    ensures At(z, s', x') && x' == Running(Blank(true), Kill(KlWake(1, 0)), ForkRet, NONE.(p1 := true), 2)
  {
    hide At;
    s', x' := Kills(z, s, x, Nop, SetKilled(1, true), Kill(KlWake(1, 0)));
  }

  /** and returns. */
  lemma KillReturns(z: State, s: State, x: Scene) returns (s': State, x': Scene)
    requires At(z, s, x) && x == Running(Blank(true), Kill(KlWake(1, 0)), ForkRet, NONE.(p1 := true), 2)
    ensures At(z, s', x') && x' == Running(Blank(true), User, ForkRet, NONE, 2)
  {
    hide At;
    s', x' := Kills(z, s, x, Nop, NoUpd, Kill(KlUnlk(1, 0)));
    s', x' := Kills(z, s', x', Release(PLock(1)), SetIntr(true), User);
  }

  /** init calls fork, which passes over init, */
  lemma ForkPasses(z: State, s: State, x: Scene, k: bool) returns (s': State, x': Scene)
    requires At(z, s, x) && x == Running(Blank(k), User, ForkRet, NONE, 2)
    ensures At(z, s', x') && x' == Running(Blank(k), Fork(FkAt(1)), ForkRet, NONE, 2)
  {
    hide At;
    s', x' := Enters(z, s, x, Fork(FkAt(0)));
    s', x' := Forks(z, s', x', Acquire(PLock(0)), NoUpd, Fork(FkTest(0)));
    s', x' := Forks(z, s', x', Nop, NoUpd, Fork(FkSkip(0)));
    s', x' := Forks(z, s', x', Release(PLock(0)), NoUpd, Fork(FkAt(1)));
  }

  /** finds slot 1, */
  lemma ForkFinds(z: State, s: State, x: Scene, k: bool) returns (s': State, x': Scene)
    requires At(z, s, x) && x == Running(Blank(k), Fork(FkAt(1)), ForkRet, NONE, 2)
    ensures At(z, s', x') && x' == Running(Blank(k), Fork(FkPidRead(1)), ForkRet, NONE.(pid := true, p1 := true), 2)
  {
    hide At;
    s', x' := Forks(z, s, x, Acquire(PLock(1)), NoUpd, Fork(FkTest(1)));
    s', x' := Forks(z, s', x', Nop, NoUpd, Fork(FkPidLock(1)));
    s', x' := Forks(z, s', x', Acquire(PidLock), NoUpd, Fork(FkPidRead(1)));
  }

  /** takes a pid, */
  lemma ForkCounts(z: State, s: State, x: Scene, k: bool) returns (s': State, x': Scene)
    requires At(z, s, x) && x == Running(Blank(k), Fork(FkPidRead(1)), ForkRet, NONE.(pid := true, p1 := true), 2)
    ensures At(z, s', x') && x' == Running(Blank(k), Fork(FkSetPid(1, 2)), ForkRet, NONE.(p1 := true), 3)
  {
    hide At;
    s', x' := Forks(z, s, x, Nop, NoUpd, Fork(FkPidBump(1, 2)));
    s', x' := Forks(z, s', x', Nop, BumpPid, Fork(FkPidUnlk(1, 2)));
    s', x' := Forks(z, s', x', Release(PidLock), NoUpd, Fork(FkSetPid(1, 2)));
  }

  /** which becomes that of the slot, */
  lemma ForkNumbers(z: State, s: State, x: Scene, k: bool) returns (s': State, x': Scene)
    requires At(z, s, x) && x == Running(Blank(k), Fork(FkSetPid(1, 2)), ForkRet, NONE.(p1 := true), 3)
    ensures At(z, s', x') && x' == Running(Proc(USED, NoChan, k, 0, 2, None), Fork(FkContext(1)), ForkRet, NONE.(p1 := true), 3)
  {
    hide At;
    s', x' := Forks(z, s, x, Nop, SetPid(1, 2), Fork(FkUsed(1)));
    s', x' := Forks(z, s', x', Nop, SetState(1, USED), Fork(FkMem(1)));
    s', x' := Forks(z, s', x', Nop, NoUpd, Fork(FkContext(1)));
  }

  /** sets up memory and context, */
  lemma ForkFills(z: State, s: State, x: Scene, k: bool) returns (s': State, x': Scene)
    requires At(z, s, x) && x == Running(Proc(USED, NoChan, k, 0, 2, None), Fork(FkContext(1)), ForkRet, NONE.(p1 := true), 3)
    ensures At(z, s', x') && x' == Running(Proc(USED, NoChan, k, 0, 2, None), Fork(FkWait(1, 2)), ForkRet, NONE, 3)
  {
    hide At;
    s', x' := Forks(z, s, x, Nop, SetContext(1), Fork(FkCopy(1)));
    s', x' := Forks(z, s', x', Nop, NoUpd, Fork(FkUnlk(1, 2)));
    s', x' := Forks(z, s', x', Release(PLock(1)), NoUpd, Fork(FkWait(1, 2)));
  }

  /** makes init the parent, */
  lemma ForkLinks(z: State, s: State, x: Scene, k: bool) returns (s': State, x': Scene)
    requires At(z, s, x) && x == Running(Proc(USED, NoChan, k, 0, 2, None), Fork(FkWait(1, 2)), ForkRet, NONE, 3)
    ensures At(z, s', x') && x' == Running(Kid(USED, k, 0), Fork(FkWaitUnlk(1, 2)), ForkRet, NONE.(wait := true), 3)
  {
    hide At;
    s', x' := Forks(z, s, x, Acquire(WaitLock), NoUpd, Fork(FkParent(1, 2)));
    s', x' := Forks(z, s', x', Nop, SetParent(1, Some(0)), Fork(FkWaitUnlk(1, 2)));
  }

  /** takes the lock of the child again, */
  lemma ForkRelocks(z: State, s: State, x: Scene, k: bool) returns (s': State, x': Scene)
    requires At(z, s, x) && x == Running(Kid(USED, k, 0), Fork(FkWaitUnlk(1, 2)), ForkRet, NONE.(wait := true), 3)
    ensures At(z, s', x') && x' == Running(Kid(USED, k, 0), Fork(FkRun(1, 2)), ForkRet, NONE.(p1 := true), 3)
  {
    hide At;
    s', x' := Forks(z, s, x, Release(WaitLock), NoUpd, Fork(FkRelock(1, 2)));
    s', x' := Forks(z, s', x', Acquire(PLock(1)), NoUpd, Fork(FkRun(1, 2)));
  }

  /** makes the child RUNNABLE */
  lemma ForkRuns(z: State, s: State, x: Scene, k: bool) returns (s': State, x': Scene)
    requires At(z, s, x) && x == Running(Kid(USED, k, 0), Fork(FkRun(1, 2)), ForkRet, NONE.(p1 := true), 3)
    ensures At(z, s', x') && x' == Running(Kid(RUNNABLE, k, 0), Fork(FkUnlk2(1, 2)), ForkRet, NONE.(p1 := true), 3)
  {
    hide At;
    s', x' := Forks(z, s, x, Nop, SetState(1, RUNNABLE), Fork(FkUnlk2(1, 2)));
  }

  /** and returns. */
  lemma ForkReturns(z: State, s: State, x: Scene, k: bool) returns (s': State, x': Scene)
    requires At(z, s, x) && x == Running(Kid(RUNNABLE, k, 0), Fork(FkUnlk2(1, 2)), ForkRet, NONE.(p1 := true), 3)
    ensures At(z, s', x') && x' == Running(Kid(RUNNABLE, k, 0), User, ForkRet, NONE, 3)
  {
    hide At;
    s', x' := Forks(z, s, x, Release(PLock(1)), SetIntr(true), User);
  }

  /** fork of init into slot 1, whose mark of killed stays as it is. */
  lemma Forked(z: State, s: State, x: Scene, k: bool) returns (s': State, x': Scene)
    requires At(z, s, x) && x == Running(Blank(k), User, ForkRet, NONE, 2)
    ensures At(z, s', x') && x' == Running(Kid(RUNNABLE, k, 0), User, ForkRet, NONE, 3)
  {
    hide *;
    s', x' := ForkPasses(z, s, x, k);
    s', x' := ForkFinds(z, s', x', k);
    s', x' := ForkCounts(z, s', x', k);
    s', x' := ForkNumbers(z, s', x', k);
    s', x' := ForkFills(z, s', x', k);
    s', x' := ForkLinks(z, s', x', k);
    s', x' := ForkRelocks(z, s', x', k);
    s', x' := ForkRuns(z, s', x', k);
    s', x' := ForkReturns(z, s', x', k);
  }

  /** init calls wait, */
  lemma WaitStarts(z: State, s: State, x: Scene) returns (s': State, x': Scene)
    requires At(z, s, x) && x == Running(Kid(RUNNABLE, false, 0), User, ForkRet, NONE, 3)
    ensures At(z, s', x') && x' == Running(Kid(RUNNABLE, false, 0), Wait(WtTest(1)), ForkRet, NONE.(wait := true, p1 := true), 3)
  {
    hide At;
    s', x' := Enters(z, s, x, Wait(WtLock));
    s', x' := Waits(z, s', x', Acquire(WaitLock), NoUpd, Wait(WtAt(0, false)));
    s', x' := Waits(z, s', x', Nop, NoUpd, Wait(WtAt(1, false)));
    s', x' := Waits(z, s', x', Acquire(PLock(1)), NoUpd, Wait(WtTest(1)));
  }

  /** finds its child alive, */
  lemma WaitScans(z: State, s: State, x: Scene) returns (s': State, x': Scene)
    requires At(z, s, x) && x == Running(Kid(RUNNABLE, false, 0), Wait(WtTest(1)), ForkRet, NONE.(wait := true, p1 := true), 3)
    ensures At(z, s', x') && x' == Running(Kid(RUNNABLE, false, 0), Wait(WtKilled(KdLock)), ForkRet, NONE.(wait := true), 3)
  {
    hide At;
    s', x' := Waits(z, s, x, Nop, NoUpd, Wait(WtSkip(1)));
    s', x' := Waits(z, s', x', Release(PLock(1)), NoUpd, Wait(WtAt(2, true)));
    s', x' := Waits(z, s', x', Nop, NoUpd, Wait(WtKilled(KdLock)));
  }

  /** is not killed, */
  lemma WaitAsks(z: State, s: State, x: Scene) returns (s': State, x': Scene)
    requires At(z, s, x) && x == Running(Kid(RUNNABLE, false, 0), Wait(WtKilled(KdLock)), ForkRet, NONE.(wait := true), 3)
    ensures At(z, s', x') && x' == Running(Kid(RUNNABLE, false, 0), Sleep(InWait, SlLock), ForkRet, NONE.(wait := true), 3)
  {
    hide At;
    s', x' := Waits(z, s, x, Acquire(PLock(0)), NoUpd, Wait(WtKilled(KdRead)));
    s', x' := Waits(z, s', x', Nop, NoUpd, Wait(WtKilled(KdUnlk(false))));
    s', x' := Waits(z, s', x', Release(PLock(0)), NoUpd, Sleep(InWait, SlLock));
  }

  /** and goes to sleep. */
  lemma WaitSleeps(z: State, s: State, x: Scene) returns (s': State, x': Scene)
    requires At(z, s, x) && x == Running(Kid(RUNNABLE, false, 0), Sleep(InWait, SlLock), ForkRet, NONE.(wait := true), 3)
    ensures At(z, s', x') && x' == Scene(InitProc(SLEEPING, OnProc(0)), Kid(RUNNABLE, false, 0), Sleep(InWait, SlSwitch), ForkRet, SchIn(0), Some(0), NONE.(p0 := true), 3, false)
  {
    hide At;
    s', x' := Sleeps(z, s, x, Acquire(PLock(0)), NoUpd, Sleep(InWait, SlUnlk));
    s', x' := Sleeps(z, s', x', Release(WaitLock), NoUpd, Sleep(InWait, SlChan));
    s', x' := Sleeps(z, s', x', Nop, SetChan(0, OnProc(0)), Sleep(InWait, SlState));
    s', x' := Sleeps(z, s', x', Nop, SetState(0, SLEEPING), Sleep(InWait, SlSwitch));
  }

  /** The scheduler turns to the child */
  lemma PicksChild(z: State, s: State, x: Scene, b: bool) returns (s': State, x': Scene)
    requires At(z, s, x) && x == Asleep(b, SLEEPING, Kid(RUNNABLE, false, 0), ForkRet, SchClear(0), Some(0), NONE.(p0 := true))
    ensures At(z, s', x') && x' == Asleep(b, SLEEPING, Kid(RUNNING, false, 0), ForkRet, SchCpu(1), None, NONE.(p1 := true))
  {
    hide At;
    s', x' := Schedules(z, s, x, Nop, SetCpuProc(None), SchUnlk(0));
    s', x' := Schedules(z, s', x', Release(PLock(0)), NoUpd, SchAt(1));
    s', x' := Schedules(z, s', x', Acquire(PLock(1)), NoUpd, SchTest(1));
    s', x' := Schedules(z, s', x', Nop, SetState(1, RUNNING), SchCpu(1));
  }

  /** and brings it to user code. */
  lemma ChildStarts(z: State, s: State, x: Scene, b: bool) returns (s': State, x': Scene)
    requires At(z, s, x) && x == Asleep(b, SLEEPING, Kid(RUNNING, false, 0), ForkRet, SchCpu(1), None, NONE.(p1 := true))
    ensures At(z, s', x') && x' == Asleep(b, SLEEPING, Kid(RUNNING, false, 0), User, SchIn(1), Some(1), NONE)
  {
    hide At;
    s', x' := Schedules(z, s, x, Nop, SetCpuProc(Some(1)), SchGo(1));
    s', x' := Schedules(z, s', x', Nop, NoUpd, SchIn(1));
    s', x' := Returns(z, s', x');
  }

  /** The child calls exit(7) and has no children to give away, */
  lemma ExitScans(z: State, s: State, x: Scene, b: bool) returns (s': State, x': Scene)
    requires At(z, s, x) && x == Asleep(b, SLEEPING, Kid(RUNNING, false, 0), User, SchIn(1), Some(1), NONE)
    ensures At(z, s', x') && x' == Asleep(b, SLEEPING, Kid(RUNNING, false, 0), Exit(ExParent(Some(0), WkAt(0)), 7), SchIn(1), Some(1), NONE.(wait := true))
  {
    hide At;
    s', x' := EntersExit(z, s, x);
    s', x' := Exits(z, s', x', Acquire(WaitLock), NoUpd, Exit(ExScan(0), 7));
    s', x' := Exits(z, s', x', Nop, NoUpd, Exit(ExScan(1), 7));
    s', x' := Exits(z, s', x', Nop, NoUpd, Exit(ExScan(2), 7));
    s', x' := Exits(z, s', x', Nop, NoUpd, Exit(ExParent(Some(0), WkAt(0)), 7));
  }

  /** wakes its parent, */
  lemma ExitWakes(z: State, s: State, x: Scene, b: bool) returns (s': State, x': Scene)
    requires At(z, s, x) && x == Asleep(b, SLEEPING, Kid(RUNNING, false, 0), Exit(ExParent(Some(0), WkAt(0)), 7), SchIn(1), Some(1), NONE.(wait := true))
    ensures At(z, s', x') && x' == Asleep(b, RUNNABLE, Kid(RUNNING, false, 0), Exit(ExParent(Some(0), WkNext(0)), 7), SchIn(1), Some(1), NONE.(wait := true, p0 := true))
  {
    hide At;
    s', x' := Exits(z, s, x, Acquire(PLock(0)), NoUpd, Exit(ExParent(Some(0), WkTest(0)), 7));
    s', x' := Exits(z, s', x', Nop, SetState(0, RUNNABLE), Exit(ExParent(Some(0), WkNext(0)), 7));
  }

  /** passes over itself, */
  lemma ExitPasses(z: State, s: State, x: Scene, b: bool) returns (s': State, x': Scene)
    requires At(z, s, x) && x == Asleep(b, RUNNABLE, Kid(RUNNING, false, 0), Exit(ExParent(Some(0), WkNext(0)), 7), SchIn(1), Some(1), NONE.(wait := true, p0 := true))
    ensures At(z, s', x') && x' == Asleep(b, RUNNABLE, Kid(RUNNING, false, 0), Exit(ExSelf, 7), SchIn(1), Some(1), NONE.(wait := true))
  {
    hide At;
    s', x' := Exits(z, s, x, Release(PLock(0)), NoUpd, Exit(ExParent(Some(0), WkAt(1)), 7));
    s', x' := Exits(z, s', x', Nop, NoUpd, Exit(ExParent(Some(0), WkAt(2)), 7));
    s', x' := Exits(z, s', x', Nop, NoUpd, Exit(ExSelf, 7));
  }

  /** becomes a zombie */
  lemma ExitDies(z: State, s: State, x: Scene, b: bool) returns (s': State, x': Scene)
    requires At(z, s, x) && x == Asleep(b, RUNNABLE, Kid(RUNNING, false, 0), Exit(ExSelf, 7), SchIn(1), Some(1), NONE.(wait := true))
    ensures At(z, s', x') && x' == Asleep(b, RUNNABLE, Kid(RUNNING, false, 7), Exit(ExZombie, 7), SchIn(1), Some(1), NONE.(wait := true, p1 := true))
  {
    hide At;
    s', x' := Exits(z, s, x, Acquire(PLock(1)), NoUpd, Exit(ExStatus, 7));
    s', x' := Exits(z, s', x', Nop, SetXstate(1, 7), Exit(ExZombie, 7));
  }

  /** and wants to leave the CPU. */
  lemma ExitEnds(z: State, s: State, x: Scene, b: bool) returns (s': State, x': Scene)
    requires At(z, s, x) && x == Asleep(b, RUNNABLE, Kid(RUNNING, false, 7), Exit(ExZombie, 7), SchIn(1), Some(1), NONE.(wait := true, p1 := true))
    ensures At(z, s', x') && x' == Asleep(b, RUNNABLE, Kid(ZOMBIE, false, 7), Exit(ExSwitch, 7), SchIn(1), Some(1), NONE.(p1 := true))
  {
    hide At;
    s', x' := Exits(z, s, x, Nop, SetState(1, ZOMBIE), Exit(ExUnlk, 7));
    s', x' := Exits(z, s', x', Release(WaitLock), NoUpd, Exit(ExSwitch, 7));
  }

  /** The scheduler leaves the child, starts again, */
  lemma StartsAgain(z: State, s: State, x: Scene, b: bool) returns (s': State, x': Scene)
    requires At(z, s, x) && x == Asleep(b, RUNNABLE, Kid(ZOMBIE, false, 7), Exit(ExDead, 7), SchClear(1), Some(1), NONE.(p1 := true))
    ensures At(z, s', x') && x' == Asleep(b, RUNNABLE, Kid(ZOMBIE, false, 7), Exit(ExDead, 7), SchAt(0), None, NONE)
  {
    hide At;
    s', x' := Schedules(z, s, x, Nop, SetCpuProc(None), SchUnlk(1));
    s', x' := Schedules(z, s', x', Release(PLock(1)), NoUpd, SchAt(2));
    s', x' := Schedules(z, s', x', Nop, NoUpd, SchTop);
    s', x' := Schedules(z, s', x', Nop, SetIntr(true), SchAt(0));
  }

  /** picks it */
  lemma PicksAgain(z: State, s: State, x: Scene, b: bool) returns (s': State, x': Scene)
    requires At(z, s, x) && x == Asleep(b, RUNNABLE, Kid(ZOMBIE, false, 7), Exit(ExDead, 7), SchAt(0), None, NONE)
    ensures At(z, s', x') && x' == Asleep(b, RUNNING, Kid(ZOMBIE, false, 7), Exit(ExDead, 7), SchCpu(0), None, NONE.(p0 := true))
  {
    hide At;
    s', x' := Schedules(z, s, x, Acquire(PLock(0)), NoUpd, SchTest(0));
    s', x' := Schedules(z, s', x', Nop, SetState(0, RUNNING), SchCpu(0));
  }

  /** and resumes init, */
  lemma ResumesInit(z: State, s: State, x: Scene, b: bool) returns (s': State, x': Scene)
    requires At(z, s, x) && x == Asleep(b, RUNNING, Kid(ZOMBIE, false, 7), Exit(ExDead, 7), SchCpu(0), None, NONE.(p0 := true))
    ensures At(z, s', x') && x' == Asleep(b, RUNNING, Kid(ZOMBIE, false, 7), Exit(ExDead, 7), SchIn(0), Some(0), NONE.(p0 := true))
  {
    hide At;
    s', x' := Schedules(z, s, x, Nop, SetCpuProc(Some(0)), SchGo(0));
    s', x' := Schedules(z, s', x', Nop, NoUpd, SchIn(0));
  }

  /** which wakes up */
  lemma SleepTidies(z: State, s: State, x: Scene, b: bool) returns (s': State, x': Scene)
    requires At(z, s, x) && x == Asleep(b, RUNNING, Kid(ZOMBIE, false, 7), Exit(ExDead, 7), SchIn(0), Some(0), NONE.(p0 := true))
    ensures At(z, s', x') && x' == Running(Kid(ZOMBIE, false, 7), Sleep(InWait, SlUnlock), Exit(ExDead, 7), NONE.(p0 := true), 3)
  {
    hide At;
    s', x' := Sleeps(z, s, x, Nop, SetIntena(b), Sleep(InWait, SlTidy));
    s', x' := Sleeps(z, s', x', Nop, SetChan(0, NoChan), Sleep(InWait, SlUnlock));
  }

  /** and returns from sleep. */
  lemma SleepReturns(z: State, s: State, x: Scene, b: bool) returns (s': State, x': Scene)
    requires At(z, s, x) && x == Running(Kid(ZOMBIE, false, 7), Sleep(InWait, SlUnlock), Exit(ExDead, 7), NONE.(p0 := true), 3)
    ensures At(z, s', x') && x' == Running(Kid(ZOMBIE, false, 7), Wait(WtAt(0, false)), Exit(ExDead, 7), NONE.(wait := true), 3)
  {
    hide At;
    s', x' := Sleeps(z, s, x, Release(PLock(0)), NoUpd, Sleep(InWait, SlRelock));
    s', x' := Sleeps(z, s', x', Acquire(WaitLock), NoUpd, Wait(WtAt(0, false)));
  }

  /** init finds the zombie */
  lemma WaitFinds(z: State, s: State, x: Scene) returns (s': State, x': Scene)
    requires At(z, s, x) && x == Running(Kid(ZOMBIE, false, 7), Wait(WtAt(0, false)), Exit(ExDead, 7), NONE.(wait := true), 3)
    ensures At(z, s', x') && x' == Running(Kid(ZOMBIE, false, 7), Wait(WtFree(1, FrKmem, Got(2, 7))), Exit(ExDead, 7), NONE.(wait := true, p1 := true), 3)
  {
    hide At;
    s', x' := Waits(z, s, x, Nop, NoUpd, Wait(WtAt(1, false)));
    s', x' := Waits(z, s', x', Acquire(PLock(1)), NoUpd, Wait(WtTest(1)));
    s', x' := Waits(z, s', x', Nop, NoUpd, Wait(WtFree(1, FrKmem, Got(2, 7))));
  }

  /** and clears its pid and its parent. */
  lemma WaitClears(z: State, s: State, x: Scene) returns (s': State, x': Scene)
    requires At(z, s, x) && x == Running(Kid(ZOMBIE, false, 7), Wait(WtFree(1, FrKmem, Got(2, 7))), Exit(ExDead, 7), NONE.(wait := true, p1 := true), 3)
    ensures At(z, s', x') && x' == Running(Proc(ZOMBIE, NoChan, false, 7, 0, None), Wait(WtFree(1, FrChan, Got(2, 7))), Exit(ExDead, 7), NONE.(wait := true, p1 := true), 3)
  {
    hide At;
    s', x' := Waits(z, s, x, Nop, NoUpd, Wait(WtFree(1, FrPid, Got(2, 7))));
    s', x' := Waits(z, s', x', Nop, SetPid(1, 0), Wait(WtFree(1, FrParent, Got(2, 7))));
    s', x' := Waits(z, s', x', Nop, SetParent(1, None), Wait(WtFree(1, FrChan, Got(2, 7))));
  }

  /** It clears the rest */
  lemma WaitFrees(z: State, s: State, x: Scene) returns (s': State, x': Scene)
    requires At(z, s, x) && x == Running(Proc(ZOMBIE, NoChan, false, 7, 0, None), Wait(WtFree(1, FrChan, Got(2, 7))), Exit(ExDead, 7), NONE.(wait := true, p1 := true), 3)
    ensures At(z, s', x') && x' == Running(Proc(ZOMBIE, NoChan, false, 0, 0, None), Wait(WtFree(1, FrState, Got(2, 7))), Exit(ExDead, 7), NONE.(wait := true, p1 := true), 3)
  {
    hide At;
    s', x' := Waits(z, s, x, Nop, SetChan(1, NoChan), Wait(WtFree(1, FrKilled, Got(2, 7))));
    s', x' := Waits(z, s', x', Nop, SetKilled(1, false), Wait(WtFree(1, FrXstate, Got(2, 7))));
    s', x' := Waits(z, s', x', Nop, SetXstate(1, 0), Wait(WtFree(1, FrState, Got(2, 7))));
  }

  /** and returns pid and status. */
  lemma WaitReturns(z: State, s: State, x: Scene) returns (s': State, x': Scene)
    requires At(z, s, x) && x == Running(Proc(ZOMBIE, NoChan, false, 0, 0, None), Wait(WtFree(1, FrState, Got(2, 7))), Exit(ExDead, 7), NONE.(wait := true, p1 := true), 3)
    ensures At(z, s', x') && x' == Running(Blank(false), Wait(WtDone(Got(2, 7))), Exit(ExDead, 7), NONE.(wait := true), 3)
  {
    hide At;
    s', x' := Waits(z, s, x, Nop, SetState(1, UNUSED), Wait(WtUnlkChild(1, Got(2, 7))));
    s', x' := Waits(z, s', x', Release(PLock(1)), NoUpd, Wait(WtDone(Got(2, 7))));
  }

  // ----- the runs -----

  /** init is asleep in wait, with its child RUNNABLE. */
  lemma ReachesSleep() returns (z: State, s': State, x: Scene, b: bool)
    ensures Init(z) && At(z, s', x) && x == Asleep(b, SLEEPING, Kid(RUNNABLE, false, 0), ForkRet, SchClear(0), Some(0), NONE.(p0 := true))
  {
    z := Start();
    x := Boot();
    hide At;
    hide Init;
    s', x := PicksInit(z, z, x);
    s', x := InitRuns(z, s', x);
    s', x := Forked(z, s', x, false);
    s', x := WaitStarts(z, s', x);
    s', x := WaitScans(z, s', x);
    s', x := WaitAsks(z, s', x);
    s', x := WaitSleeps(z, s', x);
    s', x, b := LeavesSleep(z, s', x);
  }

  /** The child exits, wakes init and becomes a zombie; wait finds it and clears its parent. */
  lemma ReachesZombie(z: State, s: State, x: Scene, b: bool) returns (s': State, x': Scene)
    requires At(z, s, x) && x == Asleep(b, SLEEPING, Kid(RUNNABLE, false, 0), ForkRet, SchClear(0), Some(0), NONE.(p0 := true))
    ensures At(z, s', x') && x' == Running(Proc(ZOMBIE, NoChan, false, 7, 0, None), Wait(WtFree(1, FrChan, Got(2, 7))), Exit(ExDead, 7), NONE.(wait := true, p1 := true), 3)
  {
    hide At;
    s', x' := PicksChild(z, s, x, b);
    s', x' := ChildStarts(z, s', x', b);
    s', x' := ExitScans(z, s', x', b);
    s', x' := ExitWakes(z, s', x', b);
    s', x' := ExitPasses(z, s', x', b);
    s', x' := ExitDies(z, s', x', b);
    s', x' := ExitEnds(z, s', x', b);
    s', x' := LeavesExit(z, s', x');
    s', x' := StartsAgain(z, s', x', b);
    s', x' := PicksAgain(z, s', x', b);
    s', x' := ResumesInit(z, s', x', b);
    s', x' := SleepTidies(z, s', x', b);
    s', x' := SleepReturns(z, s', x', b);
    s', x' := WaitFinds(z, s', x');
    s', x' := WaitClears(z, s', x');
  }

  /** wait frees the zombie and returns its pid and status. */
  lemma ReachesReturn(z: State, s: State, x: Scene) returns (s': State, x': Scene)
    requires At(z, s, x) && x == Running(Proc(ZOMBIE, NoChan, false, 7, 0, None), Wait(WtFree(1, FrChan, Got(2, 7))), Exit(ExDead, 7), NONE.(wait := true, p1 := true), 3)
    ensures At(z, s', x') && x' == Running(Blank(false), Wait(WtDone(Got(2, 7))), Exit(ExDead, 7), NONE.(wait := true), 3)
  {
    hide At;
    s', x' := WaitFrees(z, s, x);
    s', x' := WaitReturns(z, s', x');
  }

  /** init kills pid 0 and then forks. */
  lemma ReachesBirth() returns (z: State, s': State, x: Scene)
    ensures Init(z) && At(z, s', x) && x == Running(Kid(RUNNABLE, true, 0), User, ForkRet, NONE, 3)
  {
    z := Start();
    x := Boot();
    hide At;
    hide Init;
    s', x := PicksInit(z, z, x);
    s', x := InitRuns(z, s', x);
    s', x := KillPasses(z, s', x);
    s', x := KillFinds(z, s', x);
    s', x := KillMarksSlot(z, s', x);
    s', x := KillReturns(z, s', x);
    s', x := Forked(z, s', x, true);
  }
}
