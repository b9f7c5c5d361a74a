/**
 * What the process protocol guarantees in every reachable state, on any number of CPUs and slots
 * and in every interleaving.
 */
module Protocol {
  import opened ProcTypes
  import opened Machine
  import opened Locks
  import opened Invariant
  import opened CoreSteps
  import opened PlaceSteps
  import opened SlotSteps
  import opened Effects
  import opened PidSteps
  import opened TreeSteps
  import opened SleepSteps
  import opened WaitSteps
  import opened WakeSteps
  import opened TickSteps

  // ----- the invariant holds throughout -----

  lemma InitPlaces(s: State)
    requires Init(s)
    ensures CoreOk(s)
  {
    forall t: nat | t < |s.threads| ensures ThreadOk(s, t) {
      assert s.threads[t] == Ctx(ForkRet, Idle);
    }
    forall c: nat | c < |s.cpus| ensures CpuOk(s, c) && Held(Active(s, c), Self(s, c)) == {} {
      assert s.cpus[c].ctx == Ctx(Sched(SchTop), Idle);
    }
  }

  lemma InitTree(s: State)
    requires Init(s)
    ensures |s.threads| == |s.procs| && PidsOk(s) && TreeOk(s) && ZombiesOk(s)
  {
    assert s.procs[s.init].pid == 1;
  }

  lemma InitSleepers(s: State)
    requires Init(s)
    ensures |s.threads| == |s.procs| && ChansOk(s) && WaitsOk(s) && WakesOk(s) && TicksOk(s)
  {
  }

  lemma InitInv(s: State)
    requires Init(s)
    ensures Inv(s)
  {
    InitPlaces(s);
    InitTree(s);
    InitSleepers(s);
    hide Init;
    hide CoreOk;
    hide PidsOk;
    hide TreeOk;
    hide ZombiesOk;
    hide ChansOk;
    hide WaitsOk;
    hide WakesOk;
    hide TicksOk;
  }

  /** Every step of every CPU keeps the invariant. */
  lemma InvStep(s: State, s': State)
    requires Inv(s) && Step(s, s')
    ensures Inv(s')
  {
    hide StepBy;
    hide CoreOk;
    hide PidsOk;
    hide TreeOk;
    hide ZombiesOk;
    hide ChansOk;
    hide WaitsOk;
    hide WakesOk;
    hide TicksOk;
    var c: nat, act: Act, upd: Upd, next: Ctx :| StepBy(s, c, act, upd, next, s');
    SizesOk(s);
    CoreStep(s, c, act, upd, next, s');
    PidsStep(s, c, act, upd, next, s');
    TreeStep(s, c, act, upd, next, s');
    ZombiesStep(s, c, act, upd, next, s');
    ChansStep(s, c, act, upd, next, s');
    WaitsStep(s, c, act, upd, next, s');
    WakesStep(s, c, act, upd, next, s');
    SleepersStep(s, c, act, upd, next, s');
  }

  lemma {:induction false} InvRun(states: seq<State>)
    requires Run(states)
    ensures Inv(states[|states| - 1])
  {
    hide Inv;
    hide Init;
    hide Step;
    if |states| == 1 {
      InitInv(states[0]);
    } else {
      var before := states[..|states| - 1];
      assert forall i | 0 <= i < |before| :: before[i] == states[i];
      InvRun(before);
      InvStep(states[|states| - 2], states[|states| - 1]);
    }
  }

  lemma ReachableInv(s: State)
    requires Reachable(s)
    ensures Inv(s)
  {
    hide Inv;
    var states: seq<State> :| Run(states) && states[|states| - 1] == s;
    InvRun(states);
  }

  // ----- one CPU for each process -----

  /** c->proc of exactly one CPU is `p`. */
  ghost predicate OneCpu(s: State, p: nat) {
    exists c: nat :: c < |s.cpus| && s.cpus[c].proc == Some(p) && forall d: nat | d < |s.cpus| && s.cpus[d].proc == Some(p) :: d == c
  }

  lemma LockHeld(s: State, c: nat, l: Lock)
    requires LocksOk(s) && c < |s.cpus| && l in Held(Active(s, c), Self(s, c))
    ensures l in s.held && s.held[l] == c
  {
    hide Held;
  }

  /** While p->lock is free, a process is RUNNING exactly when one CPU, and no other, executes it. */
  lemma RunningOnOneCpu(s: State, p: nat)
    requires Reachable(s) && p < |s.procs| && PLock(p) !in s.held
    ensures s.procs[p].state == RUNNING <==> OneCpu(s, p)
  {
    ReachableInv(s);
    InvParts(s);
    hide *;
    if s.procs[p].state == RUNNING {
      RunningPlaced(s, p);
      var c := PlacedAt(s, p);
      ProcPlace(s, c, p);
      forall d: nat | d < |s.cpus| && s.cpus[d].proc == Some(p) ensures d == c {
        ProcPlace(s, d, p);
      }
      IsOneCpu(s, c, p);
    } else if OneCpu(s, p) {
      var c := OneCpuAt(s, p);
      ProcPlace(s, c, p);
    }
  }

  lemma PlacedAt(s: State, p: nat) returns (c: nat)
    requires Placed(s, p)
    ensures c < |s.cpus| && Place(s.cpus[c].ctx.base) == Some(p)
  {
    c :| c < |s.cpus| && Place(s.cpus[c].ctx.base) == Some(p);
  }

  lemma IsOneCpu(s: State, c: nat, p: nat)
    requires c < |s.cpus| && s.cpus[c].proc == Some(p)
    requires forall d: nat | d < |s.cpus| && s.cpus[d].proc == Some(p) :: d == c
    ensures OneCpu(s, p)
  {
  }

  lemma OneCpuAt(s: State, p: nat) returns (c: nat)
    requires OneCpu(s, p)
    ensures c < |s.cpus| && s.cpus[c].proc == Some(p)
  {
    c :| c < |s.cpus| && s.cpus[c].proc == Some(p);
  }

  lemma InvParts(s: State)
    requires Inv(s)
    ensures CoreOk(s)
    ensures forall c: nat, d: nat | c < |s.cpus| && d < |s.cpus| && Place(s.cpus[c].ctx.base).Some?
      && Place(s.cpus[c].ctx.base) == Place(s.cpus[d].ctx.base) :: c == d
  {
  }

  lemma RunningPlaced(s: State, p: nat)
    requires CoreOk(s) && p < |s.procs| && s.procs[p].state == RUNNING
    ensures Placed(s, p)
  {
    assert ThreadOk(s, p);
  }

  /** With p->lock free, c->proc says which process a CPU has made RUNNING. */
  lemma ProcPlace(s: State, c: nat, p: nat)
    requires CoreOk(s) && c < |s.cpus| && p < |s.procs| && PLock(p) !in s.held
    ensures s.cpus[c].proc == Some(p) <==> Place(s.cpus[c].ctx.base) == Some(p)
    ensures Place(s.cpus[c].ctx.base) == Some(p) ==> s.procs[p].state == RUNNING
  {
    hide LocksOk;
    hide NoffOk;
    hide SlotsOk;
    assert CpuOk(s, c);
    var pc := s.cpus[c].ctx.base;
    if pc == Sched(SchCpu(p)) || pc == Sched(SchGo(p)) || pc == Sched(SchClear(p)) {
      LockHeld(s, c, PLock(p));
    }
    if Place(pc) == Some(p) && s.procs[p].state != RUNNING {
      OnLocked(s, c, p);
      LockHeld(s, c, PLock(p));
    }
  }

  /** freeproc in wait works on a zombie child of its caller that no CPU executes. */
  lemma FreeprocOffCpu(s: State, t: nat, j: nat, f: Free, got: Got)
    requires Reachable(s) && t < |s.threads| && s.threads[t].base == Wait(WtFree(j, f, got))
    ensures j < |s.procs| == |s.threads| && s.procs[j].state == ZOMBIE && Dead(s.threads[j])
    ensures f == FrKmem ==> s.procs[j].parent == Some(t)
    ensures forall c: nat | c < |s.cpus| :: Self(s, c) != j && s.cpus[c].proc != Some(j)
  {
    ReachableInv(s);
    hide Reachable;
    InvParts(s);
    FreeprocChild(s, t, j, f, got);
    hide Inv;
    var d := OnCpu(s, t);
    Busy(s, t);
    hide Dead;
    ZombieOff(s, d, j);
  }

  lemma FreeprocChild(s: State, t: nat, j: nat, f: Free, got: Got)
    requires Inv(s) && t < |s.threads| && s.threads[t].base == Wait(WtFree(j, f, got))
    ensures j < |s.procs| && s.procs[j].state == ZOMBIE && (f == FrKmem ==> s.procs[j].parent == Some(t))
  {
    hide LocksOk;
    hide NoffOk;
    hide PidsOk;
    hide LinkOk;
    assert SlotOk(s, t) && TreeThread(s, t);
  }

  /** A zombie whose lock another thread's CPU holds is off every CPU, past its last swtch. */
  lemma ZombieOff(s: State, d: nat, j: nat)
    requires CoreOk(s) && d < |s.cpus| && j < |s.procs| && s.procs[j].state == ZOMBIE
    requires Self(s, d) < |s.threads| && Self(s, d) != j && PLock(j) in Held(Active(s, d), Self(s, d))
    ensures j < |s.threads| && Dead(s.threads[j])
    ensures forall c: nat | c < |s.cpus| :: Self(s, c) != j && s.cpus[c].proc != Some(j)
  {
    hide LocksOk;
    hide NoffOk;
    hide SlotsOk;
    hide Held;
    forall c: nat | c < |s.cpus| ensures Place(s.cpus[c].ctx.base) != Some(j) && s.cpus[c].proc != Some(j) {
      NotOn(s, c, d, j);
    }
    assert ThreadOk(s, j) && !Placed(s, j);
    forall c: nat | c < |s.cpus| ensures Self(s, c) != j {
      assert CpuOk(s, c);
    }
  }

  /** A zombie whose lock another thread's CPU holds is on no CPU. */
  lemma NotOn(s: State, c: nat, d: nat, j: nat)
    requires CoreOk(s) && c < |s.cpus| && d < |s.cpus| && j < |s.procs| && s.procs[j].state == ZOMBIE
    requires Self(s, d) < |s.threads| && Self(s, d) != j && PLock(j) in Held(Active(s, d), Self(s, d))
    ensures Place(s.cpus[c].ctx.base) != Some(j) && s.cpus[c].proc != Some(j)
  {
    hide LocksOk;
    hide NoffOk;
    hide SlotsOk;
    assert CpuOk(s, c) && CpuOk(s, d);
    if Place(s.cpus[c].ctx.base) == Some(j) {
      OnLocked(s, c, j);
      Exclusive(s, c, d, PLock(j));
    } else if s.cpus[c].ctx.base == Sched(SchClear(j)) {
      Exclusive(s, c, d, PLock(j));
    }
  }

  // ----- lock discipline -----

  /** CPU `c` is about to take lock `l`. */
  ghost predicate Wants(s: State, c: nat, l: Lock) {
    c < |s.cpus| && exists upd: Upd, next: Ctx :: Next(s, c, Acquire(l), upd, next)
  }

  /** CPU `c` waits for a lock that CPU `d` holds. */
  ghost predicate WaitsFor(s: State, c: nat, l: Lock, d: nat) {
    Wants(s, c, l) && l in s.held && s.held[l] == d
  }

  /** Locks are taken in order: whatever the CPU holds already comes before the lock it wants. */
  lemma LockOrder(s: State, c: nat, l: Lock, h: Lock)
    requires Reachable(s) && Wants(s, c, l) && h in s.held && s.held[h] == c
    ensures Rank(h) < Rank(l)
  {
    ReachableInv(s);
    hide Reachable;
    hide Next;
    hide Held;
    hide PidsOk;
    hide TreeOk;
    var upd: Upd, next: Ctx :| Next(s, c, Acquire(l), upd, next);
    ActOrder(s, c, Acquire(l), upd, next);
  }

  lemma OnePLock(ctx: Ctx, self: nat, p: nat, q: nat)
    requires PLock(p) in Held(ctx, self) && PLock(q) in Held(ctx, self)
    ensures p == q
  {
  }

  /** No CPU ever holds the locks of two processes. */
  lemma OneProcLock(s: State, p: nat, q: nat)
    requires Reachable(s) && PLock(p) in s.held && PLock(q) in s.held && s.held[PLock(p)] == s.held[PLock(q)]
    ensures p == q
  {
    ReachableInv(s);
    hide Reachable;
    hide Held;
    hide PidsOk;
    hide TreeOk;
    var c := s.held[PLock(p)];
    OnePLock(Active(s, c), Self(s, c), p, q);
  }

  /** A chain of CPUs each of which waits for the next. */
  ghost predicate WaitChain(s: State, cs: seq<nat>, ls: seq<Lock>) {
    |cs| == |ls| + 1 && forall k | 0 <= k < |ls| :: WaitsFor(s, cs[k], ls[k], cs[k + 1])
  }

  lemma {:induction false} ChainRanks(s: State, cs: seq<nat>, ls: seq<Lock>)
    requires Reachable(s) && WaitChain(s, cs, ls) && |ls| > 0
    ensures Rank(ls[0]) + |ls| - 1 <= Rank(ls[|ls| - 1])
  {
    hide Reachable;
    hide Rank;
    var n := |ls| - 1;
    if n > 0 {
      assert forall k | 0 <= k < n :: WaitsFor(s, cs[k], ls[k], cs[k + 1]);
      ChainRanks(s, cs[..n + 1], ls[..n]);
      assert WaitsFor(s, cs[n - 1], ls[n - 1], cs[n]) && WaitsFor(s, cs[n], ls[n], cs[n + 1]);
      LockOrder(s, cs[n], ls[n], ls[n - 1]);
    }
  }

  /** The waits-for graph has no cycle, not even of one CPU that waits for itself. */
  lemma NoDeadlock(s: State, cs: seq<nat>, ls: seq<Lock>)
    requires Reachable(s) && WaitChain(s, cs, ls) && |ls| > 0
    ensures cs[0] != cs[|ls|]
  {
    hide Reachable;
    ChainRanks(s, cs, ls);
    if cs[0] == cs[|ls|] {
      var last := |ls| - 1;
      assert WaitsFor(s, cs[0], ls[0], cs[1]) && WaitsFor(s, cs[last], ls[last], cs[last + 1]);
      LockOrder(s, cs[0], ls[0], ls[last]);
    }
  }

  // ----- the panics of sched, acquire and release -----

  /** The CPU is about to call swtch from a process's thread. */
  ghost predicate AtSwtch(s: State, c: nat) {
    c < |s.cpus| && exists act: Act, upd: Upd, next: Ctx :: upd.SwitchOut? && Next(s, c, act, upd, next)
  }

  /** The four checks of sched pass: p->lock held, no other lock, not RUNNING, interrupts off. */
  lemma SchedChecks(s: State, c: nat)
    requires Reachable(s) && AtSwtch(s, c)
    ensures Self(s, c) < |s.procs|
    ensures PLock(Self(s, c)) in s.held && s.held[PLock(Self(s, c))] == c
    ensures s.cpus[c].noff == 1
    ensures s.procs[Self(s, c)].state != RUNNING
    ensures !s.cpus[c].intr
  {
    ReachableInv(s);
    InvParts(s);
    CoreParts(s);
    hide Inv;
    hide Reachable;
    hide CoreOk;
    hide LocksOk;
    hide NoffOk;
    hide PlaceOk;
    hide SlotsOk;
    hide Held;
    hide Next;
    var act: Act, upd: Upd, next: Ctx :| upd.SwitchOut? && Next(s, c, act, upd, next);
    ActOrder(s, c, act, upd, next);
    LockHeld(s, c, PLock(upd.i));
    HeldNoff(s, c, PLock(upd.i));
    SwitchState(s, c, act, upd, next);
  }

  lemma HeldNoff(s: State, c: nat, l: Lock)
    requires NoffOk(s) && c < |s.cpus| && Held(Active(s, c), Self(s, c)) == {l}
    ensures s.cpus[c].noff == 1 && !s.cpus[c].intr
  {
    hide Held;
  }

  /** A thread that calls swtch has given up the state RUNNING. */
  lemma SwitchState(s: State, c: nat, act: Act, upd: Upd, next: Ctx)
    requires CoreOk(s) && c < |s.cpus| && Next(s, c, act, upd, next) && upd.SwitchOut?
    ensures Self(s, c) < |s.procs| && s.procs[Self(s, c)].state != RUNNING
  {
    hide LocksOk;
    hide NoffOk;
    Granted(s, c, act, upd, next);
    hide Next;
    assert CpuOk(s, c);
  }

  /** exit never returns from sched: no CPU executes a dead thread. */
  lemma NoZombieRuns(s: State, c: nat)
    requires Reachable(s) && c < |s.cpus|
    ensures !Dead(Active(s, c))
  {
    ReachableInv(s);
    InvParts(s);
    hide Inv;
    hide Reachable;
    hide LocksOk;
    hide NoffOk;
    hide SlotsOk;
    assert CpuOk(s, c);
  }

  /** acquire is never called on a lock the CPU holds, and release only on one it does hold. */
  lemma LockCalls(s: State, c: nat, act: Act, upd: Upd, next: Ctx)
    requires Reachable(s) && c < |s.cpus| && Next(s, c, act, upd, next)
    ensures act.Acquire? && act.l in s.held ==> s.held[act.l] != c
    ensures act.Release? ==> act.l in s.held && s.held[act.l] == c
  {
    ReachableInv(s);
    InvParts(s);
    CoreParts(s);
    hide *;
    ActOrder(s, c, act, upd, next);
    var h := Held(Active(s, c), Self(s, c));
    assert InOrder(h, act, Held(next, Self(s, c)));
    InOrderHeld(h, act, Held(next, Self(s, c)));
    HeldHere(s, c, if act.Nop? then WaitLock else act.l);
  }

  lemma InOrderHeld(h: set<Lock>, act: Act, h': set<Lock>)
    requires InOrder(h, act, h')
    ensures (act.Acquire? ==> act.l !in h) && (act.Release? ==> act.l in h)
  {
  }

  lemma HeldHere(s: State, c: nat, l: Lock)
    requires LocksOk(s) && c < |s.cpus|
    ensures l in s.held && s.held[l] == c <==> l in Held(Active(s, c), Self(s, c))
  {
    hide Held;
  }

  // ----- wait and exit -----

  /** The thread that gives children to init holds wait_lock. */
  lemma WakerHolds(s: State, e: nat)
    requires CoreOk(s) && e < |s.threads| && WakesInit(s, e)
    ensures WaitLock in s.held
  {
    hide NoffOk;
    hide SlotsOk;
    var d := OnCpu(s, e);
    assert WaitLock in HeldPc(s.threads[e].base, e);
    LockHeld(s, d, WaitLock);
  }

  /** No lost child exit, from the moment sleep has released wait_lock. */
  lemma NoLostExit(s: State, t: nat, i: nat)
    requires Reachable(s) && WaitLock !in s.held
    requires t < |s.threads| == |s.procs| && i < |s.procs| && AsleepInWait(s, t)
    ensures !IsZombieKid(s, t, i)
  {
    ReachableInv(s);
    InvParts(s);
    hide Reachable;
    hide CoreOk;
    assert NotMissed(s, t, i);
    hide Inv;
    if IsZombieKid(s, t, i) {
      var e: nat :| e < |s.threads| && WakesInit(s, e);
      WakerHolds(s, e);
    }
  }

  /** A SLEEPING process is inside sleep, on the channel of its caller. */
  lemma SleepingWhere(s: State, t: nat)
    requires Inv(s) && t < |s.procs| && s.procs[t].state == SLEEPING
    ensures t < |s.threads| == |s.procs| && Asleep(s, t) && s.procs[t].chan == ChanOf(s.threads[t].base.why, t)
  {
    hide LocksOk;
    hide NoffOk;
    hide SlotsOk;
    hide TreeOk;
    assert ThreadOk(s, t) && ChanThread(s, t);
    if Placed(s, t) {
      var c := PlacedAt(s, t);
      assert CpuOk(s, c);
    }
  }

  /**
   * No lost child exit: whenever wait_lock is free, no process that sleeps on its own address in
   * wait has a zombie child.
   */
  lemma NoLostChildExit(s: State, t: nat, i: nat)
    requires Reachable(s) && WaitLock !in s.held && t < |s.procs| && i < |s.procs|
    requires s.procs[t].state == SLEEPING && s.procs[t].chan == OnProc(t) && s.procs[i].parent == Some(t)
    ensures s.procs[i].state != ZOMBIE
  {
    ReachableInv(s);
    SleepingWhere(s, t);
    hide Reachable;
    hide Inv;
    NoLostExit(s, t, i);
  }

  /** wait gives up for lack of children only when the process has none. */
  lemma WaitFindsNone(s: State, t: nat, j: nat)
    requires Reachable(s) && t < |s.threads| && s.threads[t].base == Wait(WtAt(j, false)) && j >= |s.procs|
    ensures forall i: nat | i < |s.procs| :: s.procs[i].parent != Some(t)
  {
    ReachableInv(s);
    hide Reachable;
    hide CoreOk;
    SizesOk(s);
    assert WaitThread(s, t);
  }

  // ----- the process tree -----

  /** Live pids are distinct and below nextpid. */
  lemma PidsDistinct(s: State, i: nat, j: nat)
    requires Reachable(s) && i < |s.procs| && j < |s.procs| && s.procs[i].pid != 0
    ensures s.procs[i].pid < s.nextpid
    ensures s.procs[i].pid == s.procs[j].pid ==> i == j
    ensures Alive(s.procs[j].state) ==> s.procs[j].pid != 0
  {
    ReachableInv(s);
    hide Reachable;
    hide CoreOk;
    SizesOk(s);
    assert LinkOk(s, j);
  }

  /** A parent is alive and older than its child. */
  lemma ParentAlive(s: State, i: nat)
    requires Reachable(s) && i < |s.procs| && s.procs[i].parent.Some?
    ensures var q := s.procs[i].parent.value;
      q < |s.procs| && Alive(s.procs[q].state) && (s.procs[i].pid != 0 ==> s.procs[q].pid < s.procs[i].pid)
  {
    ReachableInv(s);
    hide Reachable;
    hide CoreOk;
    SizesOk(s);
    assert LinkOk(s, i);
  }

  /** The slot `n` parent links up from slot `i`. */
  function Ancestor(s: State, i: nat, n: nat): Option<nat>
    decreases n
  {
    if n == 0 then Some(i)
    else if i < |s.procs| && s.procs[i].parent.Some? then Ancestor(s, s.procs[i].parent.value, n - 1)
    else None
  }

  /** Following parents from any process that is alive leads to init. */
  lemma {:induction false} ReachesInit(s: State, i: nat) returns (n: nat)
    requires Reachable(s) && i < |s.procs|
    requires Alive(s.procs[i].state) || (s.procs[i].state == ZOMBIE && s.procs[i].pid != 0)
    ensures Ancestor(s, i, n) == Some(s.init) && s.init < |s.procs| && s.procs[s.init].pid == 1
    decreases s.procs[i].pid
  {
    ReachableInv(s);
    HasParent(s, i);
    hide Inv;
    hide Reachable;
    if i == s.init {
      n := 0;
    } else {
      ParentAlive(s, i);
      var m := ReachesInit(s, s.procs[i].parent.value);
      n := m + 1;
    }
  }

  lemma HasParent(s: State, i: nat)
    requires Inv(s) && i < |s.procs| && (Alive(s.procs[i].state) || (s.procs[i].state == ZOMBIE && s.procs[i].pid != 0))
    ensures s.procs[i].pid != 0 && s.init < |s.procs| && s.procs[s.init].pid == 1 && (i != s.init ==> s.procs[i].parent.Some?)
  {
    hide CoreOk;
    SizesOk(s);
    assert LinkOk(s, i);
  }

  /** A process descends from init exactly when it is init or has a parent, in every reachable state. */
  lemma HasPath(s: State, i: nat)
    requires Reachable(s) && i < |s.procs|
    ensures (exists n: nat :: Ancestor(s, i, n) == Some(s.init)) <==> i == s.init || s.procs[i].parent.Some?
  {
    hide Reachable;
    if i == s.init {
      assert Ancestor(s, i, 0) == Some(s.init);
    } else if s.procs[i].parent.Some? {
      ParentAlive(s, i);
      var n := ReachesInit(s, s.procs[i].parent.value);
      assert Ancestor(s, i, n + 1) == Some(s.init);
    }
  }

  /**
   * Where a zombie has no path to init: wait has cleared its parent, and is about to make it UNUSED.
   */
  lemma FreedZombie(s: State, t: nat, i: nat, f: Free, got: Got)
    requires Reachable(s) && t < |s.threads| && s.threads[t].base == Wait(WtFree(i, f, got)) && ParentCleared(f)
    ensures i < |s.procs| && s.procs[i].state == ZOMBIE && i != s.init && PLock(i) in s.held
    ensures forall n: nat :: Ancestor(s, i, n) != Some(s.init)
  {
    FreeprocOffCpu(s, t, i, f, got);
    ReachableInv(s);
    hide Reachable;
    ClearedParent(s, t, i, f, got);
    hide Inv;
    HasPath(s, i);
  }

  lemma ClearedParent(s: State, t: nat, i: nat, f: Free, got: Got)
    requires Inv(s) && t < |s.threads| && s.threads[t].base == Wait(WtFree(i, f, got)) && ParentCleared(f)
    requires i < |s.procs| && s.procs[i].state == ZOMBIE
    ensures s.procs[i].parent == None && i != s.init && PLock(i) in s.held
  {
    hide NoffOk;
    hide SlotsOk;
    assert TreeThread(s, t);
    var d := OnCpu(s, t);
    LockHeld(s, d, PLock(i));
  }

  /** Every runnable, running, sleeping or zombie process whose lock is free descends from init. */
  lemma ProcessTree(s: State, i: nat)
    requires Reachable(s) && i < |s.procs| && PLock(i) !in s.held
    requires s.procs[i].state != UNUSED && s.procs[i].state != USED
    ensures exists n: nat :: Ancestor(s, i, n) == Some(s.init)
  {
    ReachableInv(s);
    hide Reachable;
    ZombiePid(s, i);
    hide Inv;
    var n := ReachesInit(s, i);
    assert Ancestor(s, i, n) == Some(s.init);
  }

  /** Only wait, under p->lock, clears the pid of a zombie. */
  lemma ZombiePid(s: State, i: nat)
    requires Inv(s) && i < |s.procs| && PLock(i) !in s.held
    ensures s.procs[i].state == ZOMBIE ==> s.procs[i].pid != 0
  {
    hide NoffOk;
    hide SlotsOk;
    hide TreeOk;
    assert ZombieOk(s, i);
    if Reaped(s, i) {
      var t: nat :| t < |s.threads| && Reaps(s.threads[t].base, i);
      var d := OnCpu(s, t);
      LockHeld(s, d, PLock(i));
    }
  }

  // ----- ticks -----

  /**
   * No missed tick: whenever tickslock is free, a process that sleeps on &ticks tested the present
   * tick count last, so its time is not up.
   */
  lemma NoMissedTicks(s: State, t: nat)
    requires Reachable(s) && TicksLock !in s.held && t < |s.procs|
    requires s.procs[t].state == SLEEPING && s.procs[t].chan == OnTicks
    ensures t < |s.threads| && s.threads[t].base.Sleep? && s.threads[t].base.why.InTicks?
    ensures s.threads[t].base.why.seen == s.now && Elapsed(s, s.threads[t].base.why.t0) < s.threads[t].base.why.n
  {
    ReachableInv(s);
    InvParts(s);
    SleepingWhere(s, t);
    hide Reachable;
    hide CoreOk;
    assert TickThread(s, t) && NoMissedTick(s, t);
    hide Inv;
    if ClockWakes(s, t) {
      ClockHolds(s, t);
    }
  }

  lemma ClockHolds(s: State, t: nat)
    requires CoreOk(s) && ClockWakes(s, t)
    ensures TicksLock in s.held
  {
    hide NoffOk;
    hide SlotsOk;
    hide PlaceOk;
    var d: nat :| d < |s.cpus| && Active(s, d).isr.ClkWake? && Pending(Active(s, d).isr.w, t);
    LockHeld(s, d, TicksLock);
  }

  /** sys_sleep returns 0 only when at least `n` ticks have passed since it read the tick count. */
  lemma SleepsLongEnough(s: State, t: nat)
    requires Reachable(s) && t < |s.threads| && s.threads[t].base.Ticks? && s.threads[t].base.ts.TsOk?
    ensures s.threads[t].base.ts.start + s.threads[t].base.ts.n <= s.now
  {
    ReachableInv(s);
    hide Reachable;
    hide CoreOk;
    SizesOk(s);
    assert TickThread(s, t);
  }

  // ----- the machine starts -----

  lemma ReachableStep(s: State, s': State)
    requires Reachable(s) && Step(s, s')
    ensures Reachable(s')
  {
    hide Step;
    hide Init;
    var states: seq<State> :| Run(states) && states[|states| - 1] == s;
    var longer := states + [s'];
    forall i | 0 < i < |longer| ensures Step(longer[i - 1], longer[i]) {
      if i < |states| {
        assert Step(states[i - 1], states[i]);
      }
    }
    assert Run(longer) && longer[|longer| - 1] == s';
  }

  /** CPU 0 is in its scheduler at `q`, and slot 0 has yet to run for the first time. */
  ghost predicate BootAt(s: State, q: SchedPc, st: ProcState, locked: bool) {
    && |s.cpus| > 0 && |s.threads| == |s.procs| && |s.procs| > 0
    && s.cpus[0].ctx == Ctx(Sched(q), Idle) && s.threads[0] == Ctx(ForkRet, Idle)
    && s.procs[0].state == st && (locked <==> PLock(0) in s.held)
  }

  lemma BootStep(s: State, q: SchedPc, act: Act, upd: Upd, q': SchedPc, st: ProcState, locked: bool) returns (s': State)
    requires Reachable(s) && BootAt(s, q, st, locked) && !q.SchIn?
    requires SchedStep(s, q, act, upd, Sched(q')) && (act == Nop || (act == Acquire(PLock(0)) && !locked))
    ensures Reachable(s') && BootAt(s', q', if upd == SetState(0, RUNNING) then RUNNING else st, locked || act != Nop)
  {
    hide Reachable;
    var next := Ctx(Sched(q'), Idle);
    s' := Apply(s, 0, act, upd, next);
    assert StepBy(s, 0, act, upd, next, s');
    ReachableStep(s, s');
  }

  lemma BootReturn(s: State) returns (s': State)
    requires Reachable(s) && BootAt(s, SchIn(0), RUNNING, true)
    ensures Reachable(s') && s'.threads != [] && s'.threads[0] == Ctx(User, Idle) && s'.procs != [] && s'.procs[0].state == RUNNING
  {
    hide Reachable;
    s' := Apply(s, 0, Release(PLock(0)), SetIntr(true), Ctx(User, Idle));
    assert StepBy(s, 0, Release(PLock(0)), SetIntr(true), Ctx(User, Idle), s');
    ReachableStep(s, s');
  }

  lemma Booted(s: State)
    requires Init(s) && s.init == 0 && |s.cpus| > 0
    ensures Reachable(s) && BootAt(s, SchTop, RUNNABLE, false)
  {
    hide Step;
    assert Run([s]) && [s][|[s]| - 1] == s;
  }

  lemma BootLocks(s: State) returns (s': State)
    requires Init(s) && s.init == 0 && |s.cpus| > 0
    ensures Reachable(s') && BootAt(s', SchTest(0), RUNNABLE, true)
  {
    Booted(s);
    hide Reachable;
    hide Init;
    s' := BootStep(s, SchTop, Nop, SetIntr(true), SchAt(0), RUNNABLE, false);
    s' := BootStep(s', SchAt(0), Acquire(PLock(0)), NoUpd, SchTest(0), RUNNABLE, false);
  }

  lemma BootPicks(s: State) returns (s': State)
    requires Init(s) && s.init == 0 && |s.cpus| > 0
    ensures Reachable(s') && BootAt(s', SchCpu(0), RUNNING, true)
  {
    s' := BootLocks(s);
    hide Reachable;
    hide Init;
    s' := BootStep(s', SchTest(0), Nop, SetState(0, RUNNING), SchCpu(0), RUNNABLE, true);
  }

  /** From every booted state with init in slot 0 the scheduler brings init to user code. */
  lemma Boots(s: State) returns (s': State)
    requires Init(s) && s.init == 0 && |s.cpus| > 0
    ensures Reachable(s') && s'.threads != [] && s'.threads[0] == Ctx(User, Idle)
    ensures s'.procs != [] && s'.procs[0].state == RUNNING
  {
    s' := BootPicks(s);
    hide Reachable;
    hide Init;
    s' := BootStep(s', SchCpu(0), Nop, SetCpuProc(Some(0)), SchGo(0), RUNNING, true);
    s' := BootStep(s', SchGo(0), Nop, NoUpd, SchIn(0), RUNNING, true);
    s' := BootReturn(s');
  }
}
