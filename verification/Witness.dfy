/** What the runs of Scenes show of the reachable states. */
module Witness {
  import opened ProcTypes
  import opened Machine
  import opened Scenes
  import opened Protocol

  /**
   * init, not killed, asleep in wait on its own address with a live child; later awake, with wait
   * about to return the child's pid 2 and status 7 and the slot free.
   */
  ghost predicate ParentAsleep(s: State) {
    && |s.procs| == |s.threads| == 2 && s.procs[0].state == SLEEPING && s.procs[0].chan == OnProc(0) && !s.procs[0].killed
    && s.threads[0].base.Sleep? && s.threads[0].base.why == InWait
    && s.procs[1].state == RUNNABLE && s.procs[1].parent == Some(0) && s.procs[1].pid == 2
  }

  ghost predicate ParentServed(s: State) {
    && |s.procs| == |s.threads| == 2 && s.threads[0].base == Wait(WtDone(Got(2, 7)))
    && s.procs[0].state == RUNNING && s.procs[1].state == UNUSED
  }

  /** A parent that is not killed sleeps in wait; the exit(7) of its child wakes it, and wait frees the child. */
  lemma SleepsAndReaps() returns (s: State, s': State)
    ensures Reachable(s) && ParentAsleep(s) && Path(s, s') && ParentServed(s')
  {
    var z, x, b;
    z, s, x, b := ReachesSleep();
    assert ParentAsleep(s);
    PathReachable(z, s);
    PathStart(s);
    assert At(s, s, x);
    hide *;
    s', x := ReachesZombie(s, s, x, b);
    s', x := ReachesReturn(s, s', x);
    Served(s, s', x);
  }

  lemma Served(z: State, s: State, x: Scene)
    requires At(z, s, x) && x == Running(Blank(false), Wait(WtDone(Got(2, 7))), Exit(ExDead, 7), NONE.(wait := true), 3)
    ensures Path(z, s) && ParentServed(s)
  {
  }

  /** A reachable state with a zombie that does not descend from init: the lock in `ProcessTree` is needed. */
  lemma OrphanedZombie() returns (s: State)
    ensures Reachable(s) && |s.procs| == 2
    ensures s.procs[1].state == ZOMBIE && forall n: nat :: Ancestor(s, 1, n) != Some(s.init)
  {
    var z, x, b;
    z, s, x, b := ReachesSleep();
    hide At;
    s, x := ReachesZombie(z, s, x, b);
    Zombie(z, s, x);
    PathReachable(z, s);
    hide Reachable;
    hide Path;
    FreedZombie(s, 0, 1, FrChan, Got(2, 7));
  }

  lemma Zombie(z: State, s: State, x: Scene)
    requires At(z, s, x)
    requires x == Running(Proc(ZOMBIE, NoChan, false, 7, 0, None), Wait(WtFree(1, FrChan, Got(2, 7))), Exit(ExDead, 7), NONE.(wait := true, p1 := true), 3)
    ensures Path(z, s) && |s.procs| == |s.threads| == 2 && s.threads[0] == Ctx(Wait(WtFree(1, FrChan, Got(2, 7))), Idle)
  {
  }

  /**
   * kill(0) marks a slot that is not in use, and the next process in it starts out killed although
   * nobody has killed its pid.
   */
  lemma BornKilled() returns (s: State)
    ensures Reachable(s) && |s.procs| == 2 && s.procs[1].state == RUNNABLE
    ensures s.procs[1].killed && s.procs[1].pid == 2 && 2 !in s.marked
  {
    var z, x;
    z, s, x := ReachesBirth();
    PathReachable(z, s);
    hide Reachable;
    hide Path;
  }
}
