/** Sleeping threads and their channels after a step. */
module SleepSteps {
  import opened ProcTypes
  import opened Machine
  import opened Locks
  import opened Invariant
  import opened CoreSteps
  import opened PlaceSteps
  import opened SlotSteps
  import opened Effects
  import opened TreeSteps

  lemma ChanStays(s: State, c: nat, upd: Upd, s': State, t: nat)
    requires CoreOk(s) && TreeOk(s) && ChansOk(s) && Effect(s, upd, s') && Stays(s, c, upd, t)
    requires s'.threads[t].base == s.threads[t].base
    ensures ChanThread(s', t)
    ensures Asleep(s', t) ==> Asleep(s, t)
  {
    hide LocksOk;
    hide NoffOk;
    hide PlaceOk;
    hide Held;
    hide LinkOk;
    hide TreeThread;
    if s.threads[t].base.Sleep? {
      ActorFacts(s, c);
      Busy(s, t);
      assert ChanThread(s, t);
    }
  }

  lemma ChanMoves(s: State, c: nat, act: Act, upd: Upd, pc': Pc, s': State)
    requires CoreOk(s) && ChansOk(s) && Effect(s, upd, s') && Moves(s, c, act, upd, pc')
    requires s'.threads[Self(s, c)].base == pc'
    ensures ChanThread(s', Self(s, c))
    ensures Asleep(s', Self(s, c)) ==>
      var pc := s.threads[Self(s, c)].base;
      pc.Sleep? && pc.why == pc'.why && (Asleep(s, Self(s, c)) || (pc.sl == SlUnlk && upd == NoUpd))
  {
    hide LocksOk;
    hide NoffOk;
    hide PlaceOk;
    hide SlotsOk;
    var self, pc := Self(s, c), s.threads[Self(s, c)].base;
    assert ChanThread(s, self);
    Acting(s, c);
    if !pc.Sleep? {
      NotAsleep(s, c, self, pc, act, upd, pc');
    }
  }

  lemma NotAsleep(s: State, c: nat, self: nat, pc: Pc, act: Act, upd: Upd, pc': Pc)
    requires c < |s.cpus| && BaseStep(s, c, self, pc, act, upd, pc') && !pc.Sleep?
    ensures pc'.Sleep? ==> pc'.sl == SlLock
  {
    hide Elapsed;
  }

  lemma ChanStep(s: State, c: nat, act: Act, upd: Upd, next: Ctx, s': State, t: nat)
    requires StepBy(s, c, act, upd, next, s') && CoreOk(s) && TreeOk(s) && ChansOk(s) && t < |s.threads|
    ensures |s'.threads| == |s'.procs| == |s.threads| && ChanThread(s', t)
    ensures Asleep(s', t) ==>
      && s.threads[t].base.Sleep? && s.threads[t].base.why == s'.threads[t].base.why
      && (Asleep(s, t) || (t == Self(s, c) && s.threads[t].base.sl == SlUnlk && s.threads[t].isr == Idle && upd == NoUpd))
  {
    hide StepBy;
    hide CoreOk;
    hide TreeOk;
    hide Grant;
    hide BaseStep;
    Sizes(s, c, act, upd, next, s');
    Cases(s, c, act, upd, next, s', t);
    if s'.threads[t].base == s.threads[t].base && Stays(s, c, upd, t) {
      ChanStays(s, c, upd, s', t);
    } else if t == Self(s, c) && Moves(s, c, act, upd, next.base) && s'.threads[t] == next {
      ChanMoves(s, c, act, upd, next.base, s');
    }
  }

  lemma ChansStep(s: State, c: nat, act: Act, upd: Upd, next: Ctx, s': State)
    requires StepBy(s, c, act, upd, next, s') && CoreOk(s) && TreeOk(s) && ChansOk(s)
    ensures |s'.threads| == |s'.procs| && ChansOk(s')
  {
    hide StepBy;
    hide CoreOk;
    hide TreeOk;
    hide ChanThread;
    Sizes(s, c, act, upd, next, s');
    SizesOk(s);
    forall t: nat | t < |s'.threads| ensures ChanThread(s', t) {
      ChanStep(s, c, act, upd, next, s', t);
    }
  }

  lemma SizesOk(s: State)
    requires CoreOk(s)
    ensures |s.threads| == |s.procs| && s.init < |s.procs|
  {
  }
}
