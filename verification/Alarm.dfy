/**
 * The user alarm of lab traps: the timer branch of usertrap, sys_sigalarm, sys_sigreturn and the
 * return value that syscall writes.
 *
 * Trampoline assembly is outside the model: on a trap it stores the user registers in the trapframe,
 * and on return it loads them and jumps to the saved program counter.
 */
module Alarm {
  import opened Division
  import opened ProcTypes

  type Word = w: int | 0 <= w < 0x1_0000_0000_0000_0000

  // The registers x1 to x31, in the order of struct trapframe.
  type Regs = r: seq<Word> | |r| == 31 witness seq(31, i => 0)

  const A0: nat := 9
  const A1: nat := 10
  const A7: nat := 16
  const SYS_EXIT: int := 2
  const SYS_EXEC: int := 7
  const SYS_SIGALARM: int := 22
  const SYS_SIGRETURN: int := 23
  const NSYSCALLS: int := 24

  datatype Trapframe = Trapframe(
    kernelSatp: Word, kernelSp: Word, kernelTrap: Word, epc: Word, kernelHartid: Word, regs: Regs)

  // What a program can observe of itself between two instructions.
  datatype User = User(pc: Word, regs: Regs)

  // What usertrapret writes for the next trap; it depends on the CPU the process returns on.
  datatype KernelRegs = KernelRegs(satp: Word, sp: Word, trap: Word, hartid: Word)

  // A system call other than sigalarm and sigreturn: what it returns, and for an exec that succeeds
  // the trapframe of the new program.
  datatype Outcome = Returns(ret: Word) | Execs(ret: Word, frame: Trapframe)

  datatype Cause = Timer | Device | Fault | Ecall(other: Outcome)

  /** The fields of struct proc that a trap uses. */
  datatype State = State(
    ticks: nat, ainterv: int, handler: Word, hfl: int, killed: bool, frame: Trapframe, saved: Trapframe)

  /** The value of a 64-bit word converted to int. */
  function Int32(w: Word): int {
    var low := w % 0x1_0000_0000;
    if low < 0x8000_0000 then low else low - 0x1_0000_0000
  }

  /** `a % b` as RISC-V computes it (section 7.2 of the unprivileged ISA): remainder by zero is the dividend. */
  function Rem(a: nat, b: int): nat {
    if b == 0 then a else if b > 0 then a % b else a % (-b)
  }

  /** The instruction after the ecall. */
  function Plus4(pc: Word): Word {
    (pc + 4) % 0x1_0000_0000_0000_0000
  }

  // ----- the specification of each step -----

  /** uservec and `p->trapframe->epc = r_sepc()` */
  function Entered(s: State, u: User): State {
    s.(frame := s.frame.(epc := u.pc, regs := u.regs))
  }

  predicate Due(s: State) {
    Rem(s.ticks + 1, s.ainterv) == 0
  }

  function Ticked(s: State): State {
    if Due(s) && s.hfl == 0
    then s.(ticks := s.ticks + 1, hfl := 1, saved := s.frame, frame := s.frame.(epc := s.handler))
    else s.(ticks := s.ticks + 1)
  }

  predicate CallExits(s: State) {
    Int32(s.frame.regs[A7]) == SYS_EXIT
  }

  function Called(s: State, other: Outcome): State {
    var num := Int32(s.frame.regs[A7]);
    if num == SYS_SIGALARM then
      s.(ainterv := Int32(s.frame.regs[A0]), handler := s.frame.regs[A1], frame := WithA0(s.frame, 0))
    else if num == SYS_SIGRETURN then
      s.(hfl := 0, frame := WithA0(s.saved, s.saved.regs[A0]))
    else if 0 < num < NSYSCALLS then
      s.(frame := WithA0(if num == SYS_EXEC && other.Execs? then other.frame else s.frame, other.ret))
    else
      s.(frame := WithA0(s.frame, 0xffff_ffff_ffff_ffff))
  }

  function WithA0(f: Trapframe, v: Word): Trapframe {
    f.(regs := f.regs[A0 := v])
  }

  function Left(s: State, k: KernelRegs): State {
    s.(frame := s.frame.(kernelSatp := k.satp, kernelSp := k.sp, kernelTrap := k.trap, kernelHartid := k.hartid))
  }

  /**
   * The process does not return from the trap: it has been killed before a check of usertrap, or
   * calls exit.  `late` says that a kill arrives between the two checks.
   */
  predicate Leaves(s: State, u: User, cause: Cause, late: bool) {
    s.killed || late || cause.Fault? || (cause.Ecall? && CallExits(Entered(s, u)))
  }

  /** A trap from user code, from its entry to the return to user code. */
  function Trapped(s: State, u: User, cause: Cause, k: KernelRegs): State {
    var s1 := Entered(s, u);
    Left(match cause
         case Timer => Ticked(s1)
         case Device => s1
         case Fault => s1
         case Ecall(other) => Called(s1.(frame := s1.frame.(epc := Plus4(s1.frame.epc))), other),
         k)
  }

  /** userret */
  function Resumed(s: State): User {
    User(s.frame.epc, s.frame.regs)
  }

  // ----- the code -----

  class Process {
    var ticks: nat
    var ainterv: int
    var handler: Word
    var hfl: int
    var killed: bool
    var trapframe: Trapframe
    var trapframesv: Trapframe

    function Abs(): State
      reads this
    {
      State(ticks, ainterv, handler, hfl, killed, trapframe, trapframesv)
    }

    /** allocproc: the alarm is off. */
    constructor (frame: Trapframe, saved: Trapframe)
      ensures Abs() == State(0, 0, 0, 0, false, frame, saved)
    {
      ticks, ainterv, handler, hfl, killed := 0, 0, 0, 0, false;
      trapframe, trapframesv := frame, saved;
    }

    /** The timer branch of usertrap, up to yield. */
    method TimerInterrupt()
      modifies this
      ensures Abs() == Ticked(old(Abs()))
    {
      ticks := ticks + 1;
      if Rem(ticks, ainterv) == 0 && ticks != 0 {
        if hfl == 0 {
          hfl := 1;
          trapframesv := trapframe;
          trapframe := trapframe.(epc := handler);
        }
      }
    }

    method SysSigalarm() returns (r: Word)
      modifies this`ainterv, this`handler
      ensures r == 0
      ensures ainterv == Int32(trapframe.regs[A0]) && handler == trapframe.regs[A1]
    {
      ainterv := Int32(trapframe.regs[A0]);
      handler := trapframe.regs[A1];
      r := 0;
    }

    method SysSigreturn() returns (r: Word)
      modifies this`hfl, this`trapframe
      ensures hfl == 0 && trapframe == trapframesv && r == trapframesv.regs[A0]
    {
      hfl := 0;
      trapframe := trapframesv;
      r := trapframe.regs[A0];
    }

    /** syscall: `exits` when the call is exit, which does not return. */
    method Syscall(other: Outcome) returns (exits: bool)
      modifies this
      ensures exits <==> CallExits(old(Abs()))
      ensures !exits ==> Abs() == Called(old(Abs()), other)
    {
      var num := Int32(trapframe.regs[A7]);
      exits := false;
      if 0 < num < NSYSCALLS {
        var r: Word;
        if num == SYS_SIGALARM {
          r := SysSigalarm();
        } else if num == SYS_SIGRETURN {
          r := SysSigreturn();
        } else if num == SYS_EXIT {
          return true;
        } else {
          r := other.ret;
          if num == SYS_EXEC && other.Execs? {
            trapframe := other.frame;
          }
        }
        trapframe := trapframe.(regs := trapframe.regs[A0 := r]);
      } else {
        trapframe := trapframe.(regs := trapframe.regs[A0 := 0xffff_ffff_ffff_ffff]);
      }
    }

    method UserTrapRet(k: KernelRegs) returns (u: User)
      modifies this`trapframe
      ensures Abs() == Left(old(Abs()), k) && u == Resumed(Abs())
    {
      trapframe := trapframe.(kernelSatp := k.satp, kernelSp := k.sp, kernelTrap := k.trap, kernelHartid := k.hartid);
      u := User(trapframe.epc, trapframe.regs);
    }

    /** usertrap: None when the process exits instead of returning to user code. */
    method UserTrap(u: User, cause: Cause, late: bool, k: KernelRegs) returns (u': Option<User>)
      modifies this
      ensures u' == None <==> Leaves(old(Abs()), u, cause, late)
      ensures u'.Some? ==> Abs() == Trapped(old(Abs()), u, cause, k) && u'.value == Resumed(Abs())
    {
      trapframe := trapframe.(regs := u.regs);
      trapframe := trapframe.(epc := u.pc);
      match cause {
        case Timer =>
        case Device =>
        case Fault =>
          killed := true;
        case Ecall(other) =>
          if killed {
            return None;
          }
          trapframe := trapframe.(epc := Plus4(trapframe.epc));
          var exits := Syscall(other);
          if exits {
            return None;
          }
      }
      killed := killed || late;
      if killed {
        return None;
      }
      if cause.Timer? {
        TimerInterrupt();
      }
      var back := UserTrapRet(k);
      u' := Some(back);
    }
  }

  // ----- runs -----

  // User code runs for a while, another process kills this one, or it traps.
  datatype Event = Runs(next: User) | Kill | Traps(cause: Cause, late: bool, k: KernelRegs)

  // `gone`: the process has exited.
  datatype Conf = Conf(s: State, u: User, gone: bool)

  function Step(c: Conf, e: Event): Conf {
    if c.gone then c
    else match e
      case Runs(next) => c.(u := next)
      case Kill => c.(s := c.s.(killed := true))
      case Traps(cause, late, k) =>
        if Leaves(c.s, c.u, cause, late) then c.(gone := true)
        else
          var s := Trapped(c.s, c.u, cause, k);
          Conf(s, Resumed(s), false)
  }

  function Exec(c: Conf, es: seq<Event>): Conf {
    if es == [] then c else Step(Exec(c, es[..|es| - 1]), es[|es| - 1])
  }

  /** The event is a trap that the process comes back from. */
  predicate Back(c: Conf, e: Event) {
    !c.gone && e.Traps? && !Leaves(c.s, c.u, e.cause, e.late)
  }

  /** The event is the system call `num`. */
  predicate Calls(c: Conf, e: Event, num: int) {
    Back(c, e) && e.cause.Ecall? && Int32(c.u.regs[A7]) == num
  }

  predicate DueTick(c: Conf, e: Event) {
    Back(c, e) && e.cause.Timer? && Due(c.s)
  }

  predicate Delivers(c: Conf, e: Event) {
    DueTick(c, e) && c.s.hfl == 0
  }

  // ----- what one event does, register by register -----

  /** int is the low 32 bits of the word, in two's complement. */
  lemma Int32Is(w: Word)
    ensures -0x8000_0000 <= Int32(w) < 0x8000_0000 && (w - Int32(w)) % 0x1_0000_0000 == 0
  {
  }

  /** A process comes back from a trap unless it was killed, raises an unexpected exception or calls exit. */
  lemma BackWhen(c: Conf, e: Event)
    ensures Back(c, e) <==>
      && !c.gone && e.Traps? && !c.s.killed && !e.late && e.cause != Fault
      && !(e.cause.Ecall? && Int32(c.u.regs[16]) == 2)
    ensures !Back(c, e) && e.Traps? ==> Step(c, e).gone
    ensures c.gone ==> Step(c, e) == c
    ensures Step(c, Kill) == if c.gone then c else c.(s := c.s.(killed := true))
  {
  }

  /**
   * A program goes on after its system call with the return value in a0 (x10) and every other
   * register as it was; sigreturn and a successful exec replace the registers.
   */
  lemma CallReturns(c: Conf, e: Event)
    requires Back(c, e) && e.cause.Ecall?
    requires var num := Int32(c.u.regs[16]); num != 23 && !(num == 7 && e.cause.other.Execs?)
    ensures var num, u := Int32(c.u.regs[16]), Step(c, e).u;
      && u.pc == (c.u.pc + 4) % 0x1_0000_0000_0000_0000
      && u.regs[9] == (if num == 22 then 0 else if 0 < num < 24 then e.cause.other.ret else 0xffff_ffff_ffff_ffff)
      && forall i | 0 <= i < 31 && i != 9 :: u.regs[i] == c.u.regs[i]
  {
  }

  /** A successful exec goes on in the new program, with the return value of exec, argc, in a0. */
  lemma ExecStarts(c: Conf, e: Event)
    requires Back(c, e) && e.cause.Ecall? && Int32(c.u.regs[16]) == 7 && e.cause.other.Execs?
    ensures var f, u := e.cause.other.frame, Step(c, e).u;
      u.pc == f.epc && u.regs[9] == e.cause.other.ret && forall i | 0 <= i < 31 && i != 9 :: u.regs[i] == f.regs[i]
  {
  }

  /** sigalarm takes the interval from a0 and the handler from a1; nothing else sets them. */
  lemma AlarmSet(c: Conf, e: Event)
    ensures var s, s' := c.s, Step(c, e).s;
      if Back(c, e) && e.cause.Ecall? && Int32(c.u.regs[16]) == 22
      then s'.ainterv == Int32(c.u.regs[9]) && s'.handler == c.u.regs[10]
      else s'.ainterv == s.ainterv && s'.handler == s.handler
  {
  }

  /** A trap that neither delivers nor is a system call is invisible to the program. */
  lemma Invisible(c: Conf, e: Event)
    requires Back(c, e) && !e.cause.Ecall? && !Delivers(c, e)
    ensures Step(c, e).u == c.u && Step(c, e).s.saved == c.s.saved
  {
  }

  /** Every return leaves the registers of the present CPU in the kernel part of the trapframe, after sigreturn too. */
  lemma KernelPart(c: Conf, e: Event)
    requires Back(c, e)
    ensures var f := Step(c, e).s.frame;
      f.kernelSatp == e.k.satp && f.kernelSp == e.k.sp && f.kernelTrap == e.k.trap && f.kernelHartid == e.k.hartid
    ensures var d := Step(c, e); d.u.pc == d.s.frame.epc && d.u.regs == d.s.frame.regs
  {
  }

  /** The program calls sigreturn at no event of `es`. */
  predicate NoSigreturn(c: Conf, es: seq<Event>) {
    forall i | 0 <= i < |es| :: !Calls(Exec(c, es[..i]), es[i], SYS_SIGRETURN)
  }

  lemma NoSigreturnPrefix(c: Conf, es: seq<Event>, n: nat)
    requires NoSigreturn(c, es) && n <= |es|
    ensures NoSigreturn(c, es[..n])
  {
    forall i | 0 <= i < n ensures !Calls(Exec(c, es[..n][..i]), es[..n][i], SYS_SIGRETURN) {
      assert es[..n][..i] == es[..i];
    }
  }

  lemma FrozenStep(c: Conf, e: Event)
    requires c.s.hfl == 1 && !Calls(c, e, SYS_SIGRETURN)
    ensures Step(c, e).s.hfl == 1 && Step(c, e).s.saved == c.s.saved && !Delivers(c, e)
  {
  }

  /**
   * While a handler runs the saved trapframe is frozen and no other delivery happens, whatever the
   * handler does: any user code, other system calls (sigalarm and exec included), ticks.
   */
  lemma {:induction false} Frozen(c: Conf, es: seq<Event>)
    requires c.s.hfl == 1 && NoSigreturn(c, es)
    ensures Exec(c, es).s.hfl == 1 && Exec(c, es).s.saved == c.s.saved
    ensures Deliveries(c, es) == 0
  {
    hide Step;
    hide Calls;
    hide Delivers;
    if es != [] {
      var n := |es| - 1;
      NoSigreturnPrefix(c, es, n);
      Frozen(c, es[..n]);
      FrozenStep(Exec(c, es[..n]), es[n]);
    }
  }

  /** The handler starts with the registers of the interrupted program. */
  lemma HandlerEntry(c: Conf, e: Event)
    requires Delivers(c, e)
    ensures Step(c, e).u == User(c.s.handler, c.u.regs) && Step(c, e).s.hfl == 1
  {
  }

  /** A delivery saves the interrupted program. */
  lemma DeliverySaves(c: Conf, e: Event)
    requires Delivers(c, e)
    ensures Step(c, e).s.hfl == 1 && Step(c, e).s.saved.epc == c.u.pc && Step(c, e).s.saved.regs == c.u.regs
  {
  }

  /** sigreturn resumes at the last delivery; without one it jumps wherever the saved trapframe says. */
  lemma SigreturnResumes(c: Conf, ret: Event)
    requires Calls(c, ret, SYS_SIGRETURN)
    ensures Step(c, ret).u == User(c.s.saved.epc, c.s.saved.regs) && Step(c, ret).s.hfl == 0 && !Step(c, ret).gone
  {
    assert c.s.saved.regs[A0 := c.s.saved.regs[A0]] == c.s.saved.regs;
  }

  /**
   * Transparency: the program that was interrupted by a delivery goes on, after the next sigreturn,
   * with exactly the registers and the program counter it had, a0 included.
   */
  lemma Transparent(c: Conf, tick: Event, es: seq<Event>, ret: Event)
    requires Delivers(c, tick)
    requires NoSigreturn(Step(c, tick), es)
    requires Calls(Exec(Step(c, tick), es), ret, SYS_SIGRETURN)
    ensures Step(Exec(Step(c, tick), es), ret).u == c.u
    ensures Step(Exec(Step(c, tick), es), ret).s.hfl == 0 && !Step(Exec(Step(c, tick), es), ret).gone
  {
    hide *;
    DeliverySaves(c, tick);
    Frozen(Step(c, tick), es);
    SigreturnResumes(Exec(Step(c, tick), es), ret);
  }

  // ----- the rate of deliveries -----

  function Deliveries(c: Conf, es: seq<Event>): nat {
    if es == [] then 0
    else Deliveries(c, es[..|es| - 1]) + if Delivers(Exec(c, es[..|es| - 1]), es[|es| - 1]) then 1 else 0
  }

  /** The timer interrupts that the process comes back from. */
  function Timers(c: Conf, es: seq<Event>): nat {
    if es == [] then 0
    else
      var d := Exec(c, es[..|es| - 1]);
      var e := es[|es| - 1];
      Timers(c, es[..|es| - 1]) + if Back(d, e) && e.cause.Timer? then 1 else 0
  }

  /** p->ticks counts exactly these. */
  lemma {:induction false} TicksCount(c: Conf, es: seq<Event>)
    ensures Exec(c, es).s.ticks == c.s.ticks + Timers(c, es)
  {
    if es != [] {
      TicksCount(c, es[..|es| - 1]);
    }
  }

  /** Due ticks that find the previous handler still running. */
  function Skipped(c: Conf, es: seq<Event>): nat {
    if es == [] then 0
    else
      var d := Exec(c, es[..|es| - 1]);
      var e := es[|es| - 1];
      Skipped(c, es[..|es| - 1]) + if DueTick(d, e) && d.s.hfl != 0 then 1 else 0
  }

  /** A due tick is a multiple of the interval; interval 0 turns the alarm off. */
  lemma WhenDelivered(c: Conf, e: Event)
    ensures Delivers(c, e) <==>
      && !c.gone && !c.s.killed && e.Traps? && e.cause.Timer? && !e.late && c.s.hfl == 0 && c.s.ainterv != 0
      && (c.s.ticks + 1) % (if c.s.ainterv < 0 then -c.s.ainterv else c.s.ainterv) == 0
  {
  }

  lemma NextQuotient(t: nat, n: nat)
    requires n > 0
    ensures (t + 1) / n == t / n + if (t + 1) % n == 0 then 1 else 0
  {
    var q := t / n;
    if (t + 1) % n == 0 {
      assert t + 1 == n * ((t + 1) / n);
      QuotientIs(t, n, (t + 1) / n - 1, n - 1);
    } else {
      assert t + 1 == n * ((t + 1) / n) + (t + 1) % n;
      QuotientIs(t, n, (t + 1) / n, (t + 1) % n - 1);
    }
  }

  /** The interval is `n` before every event of `es`. */
  predicate Steady(c: Conf, es: seq<Event>, n: int) {
    forall i | 0 <= i < |es| :: Exec(c, es[..i]).s.ainterv == n
  }

  lemma AlarmKept(c: Conf, e: Event)
    requires !Calls(c, e, 22)
    ensures Step(c, e).s.ainterv == c.s.ainterv
  {
    AlarmSet(c, e);
  }

  /** The interval is steady as long as the program does not call sigalarm. */
  lemma {:induction false} SteadyWithout(c: Conf, es: seq<Event>)
    requires forall i: nat | i < |es| :: !Calls(Exec(c, es[..i]), es[i], 22)
    ensures Steady(c, es, c.s.ainterv) && Exec(c, es).s.ainterv == c.s.ainterv
  {
    hide Step;
    hide Calls;
    LastStep(c, es);
    hide Exec;
    if es != [] {
      var k := |es| - 1;
      forall i: nat | i < k ensures !Calls(Exec(c, es[..k][..i]), es[..k][i], 22) {
        assert es[..k][..i] == es[..i];
      }
      SteadyWithout(c, es[..k]);
      assert !Calls(Exec(c, es[..k]), es[k], 22);
      AlarmKept(Exec(c, es[..k]), es[k]);
      forall i | 0 <= i < |es| ensures Exec(c, es[..i]).s.ainterv == c.s.ainterv {
        if i < k {
          assert es[..k][..i] == es[..i];
        }
      }
    }
  }

  lemma LastStep(c: Conf, es: seq<Event>)
    ensures Exec(c, es) == if es == [] then c else Step(Exec(c, es[..|es| - 1]), es[|es| - 1])
  {
    hide Step;
  }

  /** One event delivers or skips when it counts a multiple of the interval. */
  lemma OneTick(d: Conf, e: Event, n: nat)
    requires d.s.ainterv == n > 0
    ensures (if Delivers(d, e) then 1 else 0) + (if DueTick(d, e) && d.s.hfl != 0 then 1 else 0)
      == (d.s.ticks + if Back(d, e) && e.cause.Timer? then 1 else 0) / n - d.s.ticks / n
  {
    NextQuotient(d.s.ticks, n);
    WhenDelivered(d, e);
  }

  /**
   * Alarm rate: while the interval stays n > 0, each multiple of n that p->ticks passes is delivered
   * once, or skipped because a handler is running.
   */
  lemma {:induction false} Rate(c: Conf, es: seq<Event>, n: nat)
    requires n > 0 && Steady(c, es, n)
    ensures Deliveries(c, es) + Skipped(c, es) == (c.s.ticks + Timers(c, es)) / n - c.s.ticks / n
  {
    hide Delivers;
    hide DueTick;
    hide Back;
    if es != [] {
      var k := |es| - 1;
      forall i | 0 <= i < k ensures Exec(c, es[..k][..i]).s.ainterv == n {
        assert es[..k][..i] == es[..i];
      }
      Rate(c, es[..k], n);
      TicksCount(c, es[..k]);
      OneTick(Exec(c, es[..k]), es[k], n);
    }
  }

  /** Event `i` is a due tick, a delivery, or a call of sigreturn. */
  predicate DueAt(c: Conf, es: seq<Event>, i: nat)
    requires i < |es|
  {
    DueTick(Exec(c, es[..i]), es[i])
  }

  predicate DeliversAt(c: Conf, es: seq<Event>, i: nat)
    requires i < |es|
  {
    Delivers(Exec(c, es[..i]), es[i])
  }

  predicate SigreturnAt(c: Conf, es: seq<Event>, i: nat)
    requires i < |es|
  {
    Calls(Exec(c, es[..i]), es[i], SYS_SIGRETURN)
  }

  /** The program calls sigreturn after event `i` and before event `j`. */
  predicate ReturnsBetween(c: Conf, es: seq<Event>, i: nat, j: nat)
    requires j <= |es|
  {
    exists m: nat :: i < m < j && SigreturnAt(c, es, m)
  }

  /** hfl is changed by deliveries and by sigreturn only. */
  lemma FlagStep(c: Conf, e: Event)
    ensures Step(c, e).s.hfl ==
      if Delivers(c, e) then 1 else if Calls(c, e, SYS_SIGRETURN) then 0 else c.s.hfl
  {
  }

  /** The handler of every delivery before event `j` has returned by then. */
  predicate AllReturned(c: Conf, es: seq<Event>, j: nat)
    requires j <= |es|
  {
    forall i: nat | i < j && DeliversAt(c, es, i) :: ReturnsBetween(c, es, i, j)
  }

  lemma ReturnedStep(c: Conf, es: seq<Event>, k: nat)
    requires k < |es|
    ensures AllReturned(c, es, k + 1) <==> (AllReturned(c, es, k) || SigreturnAt(c, es, k)) && !DeliversAt(c, es, k)
  {
    hide DeliversAt;
    hide SigreturnAt;
    forall i: nat | i < k
      ensures ReturnsBetween(c, es, i, k + 1) <==> ReturnsBetween(c, es, i, k) || SigreturnAt(c, es, k)
    {
      if ReturnsBetween(c, es, i, k) {
        var m: nat :| i < m < k && SigreturnAt(c, es, m);
        assert i < m < k + 1;
      }
      if SigreturnAt(c, es, k) {
        assert i < k < k + 1;
      }
    }
    assert !ReturnsBetween(c, es, k, k + 1);
    if !AllReturned(c, es, k) {
      var i: nat :| i < k && DeliversAt(c, es, i) && !ReturnsBetween(c, es, i, k);
      assert i < k + 1 && (ReturnsBetween(c, es, i, k + 1) <==> SigreturnAt(c, es, k));
    }
  }

  /** A handler is running exactly when the program has not called sigreturn since the last delivery. */
  lemma {:induction false} FlagByCalls(c: Conf, es: seq<Event>, j: nat)
    requires j <= |es| && c.s.hfl == 0
    ensures Exec(c, es[..j]).s.hfl == 0 <==> AllReturned(c, es, j)
  {
    hide Delivers;
    hide Calls;
    hide Step;
    if j > 0 {
      var k := j - 1;
      FlagByCalls(c, es, k);
      assert es[..j][..k] == es[..k] && es[..j][k] == es[k];
      FlagStep(Exec(c, es[..k]), es[k]);
      BothAt(c, es, k);
      ReturnedStep(c, es, k);
      hide AllReturned;
    }
  }

  /** One event is not both. */
  lemma BothAt(c: Conf, es: seq<Event>, i: nat)
    requires i < |es|
    ensures !(DeliversAt(c, es, i) && SigreturnAt(c, es, i))
  {
  }

  /**
   * Full rate, by the program's calls: when no handler runs at the start, every multiple of n is
   * delivered exactly when the program calls sigreturn between each delivery and each later multiple.
   */
  lemma FullRate(c: Conf, es: seq<Event>, n: nat)
    requires n > 0 && Steady(c, es, n) && c.s.hfl == 0
    ensures Deliveries(c, es) == (c.s.ticks + Timers(c, es)) / n - c.s.ticks / n <==>
      forall i: nat, j: nat | i < j < |es| && DeliversAt(c, es, i) && DueAt(c, es, j) :: ReturnsBetween(c, es, i, j)
  {
    hide *;
    Rate(c, es, n);
    SkippedNone(c, es);
    IsAllDelivered(c, es);
    forall j: nat | j < |es| && DueAt(c, es, j)
      ensures DeliversAt(c, es, j) <==> forall i: nat | i < j && DeliversAt(c, es, i) :: ReturnsBetween(c, es, i, j)
    {
      FlagByCalls(c, es, j);
      DueDelivers(c, es, j);
      IsAllReturned(c, es, j);
    }
  }

  lemma IsAllDelivered(c: Conf, es: seq<Event>)
    ensures AllDelivered(c, es, |es|) <==> forall i: nat | i < |es| && DueAt(c, es, i) :: DeliversAt(c, es, i)
  {
  }

  lemma IsAllReturned(c: Conf, es: seq<Event>, j: nat)
    requires j <= |es|
    ensures AllReturned(c, es, j) <==> forall i: nat | i < j && DeliversAt(c, es, i) :: ReturnsBetween(c, es, i, j)
  {
  }

  lemma DueDelivers(c: Conf, es: seq<Event>, j: nat)
    requires j < |es| && DueAt(c, es, j)
    ensures DeliversAt(c, es, j) <==> Exec(c, es[..j]).s.hfl == 0
  {
  }

  /** Every due tick among the first `n` events is delivered. */
  predicate AllDelivered(c: Conf, es: seq<Event>, n: nat)
    requires n <= |es|
  {
    forall i: nat | i < n && DueAt(c, es, i) :: DeliversAt(c, es, i)
  }

  lemma {:induction false} SkippedNone(c: Conf, es: seq<Event>)
    ensures Skipped(c, es) == 0 <==> AllDelivered(c, es, |es|)
  {
    hide Exec;
    hide DueTick;
    if es != [] {
      var k := |es| - 1;
      SkippedNone(c, es[..k]);
      forall i: nat | i < k
        ensures (DueAt(c, es[..k], i) <==> DueAt(c, es, i)) && (DeliversAt(c, es[..k], i) <==> DeliversAt(c, es, i))
      {
        assert es[..k][..i] == es[..i];
      }
      assert AllDelivered(c, es[..k], k) <==> AllDelivered(c, es, k);
      assert AllDelivered(c, es, |es|) <==> AllDelivered(c, es, k) && (DueAt(c, es, k) ==> DeliversAt(c, es, k));
    }
  }
}
