/**
 * Processes and the pages they hold (allocproc, freeproc, growproc and fork in
 * lab traps/kernel/proc.c).  Calls run one at a time here; the interleaving of the lock
 * protocol is the subject of the Machine and Protocol modules.
 */
module Kernel {
  import opened Riscv
  import opened PhysMem
  import opened Kalloc
  import opened PageTable
  import opened Vm
  import opened Uvm
  import opened Copy
  import opened Teardown
  import opened ProcPages
  import UserIo
  import opened ProcTypes

  // struct proc: the fields that decide what the process holds, and those allocproc and fork set.
  datatype Proc = Proc(
    state: ProcState, pid: nat, parent: Option<nat>, sz: nat,
    pagetable: nat, trapframe: nat, trapframesv: nat,
    ticks: int, ainterv: int, handler: nat, hfl: int)

  function PtrPage(pa: nat): set<nat> {
    if pa == 0 then {} else {pa / 4096}
  }

  /** The pages that hang from a process: its two trapframe pages and its address space. */
  ghost function Holdings(p: Proc, sp: Space): set<nat> {
    PtrPage(p.trapframe) + PtrPage(p.trapframesv) + if p.pagetable == 0 then {} else Owned(sp)
  }

  ghost predicate PtrOk(k: Kmem, free: seq<nat>, pa: nat) {
    pa != 0 ==> pa % 4096 == 0 && k.Managed(pa / 4096) && pa / 4096 !in free
  }

  /**
   * A slot of the process table at any point between statements: every pointer that is set leads
   * to pages of this slot alone, and an address space goes with both trapframe pages.
   */
  ghost predicate SlotAt(k: Kmem, m: Mem, free: seq<nat>, trampoline: nat, p: Proc, sp: Space) {
    && PtrOk(k, free, p.trapframe) && PtrOk(k, free, p.trapframesv)
    && (PtrPage(p.trapframe) !! PtrPage(p.trapframesv))
    && (p.pagetable == 0 ==> p.sz == 0)
    && (p.pagetable != 0 ==>
          && OwnsAt(k, m, free, sp)
          && p.pagetable == sp.RootPage() * 4096
          && p.trapframe != 0 && p.trapframesv != 0
          && ProcLeaves(sp, p.sz, trampoline, p.trapframe)
          && p.trapframe / 4096 !in Owned(sp) && p.trapframesv / 4096 !in Owned(sp))
    && (p.state == UNUSED ==> p.trapframe == 0 && p.trapframesv == 0 && p.pagetable == 0 && p.pid == 0 && p.parent == None)
    && (p.state != UNUSED && p.state != USED ==> p.pagetable != 0)
  }

  ghost function AllHoldings(procs: seq<Proc>, spaces: seq<Space>): set<nat>
    requires |procs| == |spaces|
  {
    set i, p | 0 <= i < |procs| && p in Holdings(procs[i], spaces[i]) :: p
  }

  /**
   * The ownership partition: each page of the pool is free or held by exactly one slot, and no slot
   * holds anything else.
   */
  ghost predicate Partition(pool: set<nat>, free: seq<nat>, procs: seq<Proc>, spaces: seq<Space>) {
    && |procs| == |spaces|
    && ToSet(free) + AllHoldings(procs, spaces) == pool
    && (forall i | 0 <= i < |procs| :: Holdings(procs[i], spaces[i]) !! ToSet(free))
    && (forall i, j | 0 <= i < j < |procs| :: Holdings(procs[i], spaces[i]) !! Holdings(procs[j], spaces[j]))
  }

  ghost predicate TableAt(k: Kmem, m: Mem, free: seq<nat>, trampoline: nat, procs: seq<Proc>, spaces: seq<Space>) {
    |procs| == |spaces| && forall i | 0 <= i < |procs| :: SlotAt(k, m, free, trampoline, procs[i], spaces[i])
  }

  // ----- changing one slot -----

  /** What a slot holds is in managed memory and not free. */
  lemma HoldingsManaged(k: Kmem, m: Mem, free: seq<nat>, trampoline: nat, p: Proc, sp: Space)
    requires SlotAt(k, m, free, trampoline, p, sp)
    ensures forall q | q in Holdings(p, sp) :: k.Managed(q) && q !in free
  {
    hide WF;
    forall q | q in Holdings(p, sp) ensures k.Managed(q) && q !in free {
      if p.pagetable != 0 && q in Frames(sp.leaf, 0, USERTOP) {
        var v :| v in sp.leaf && v < USERTOP && sp.leaf[v].frame == q;
      }
    }
  }

  /** A slot is not disturbed by changes to pages it does not hold. */
  lemma SlotFrame(k: Kmem, m: Mem, free: seq<nat>, trampoline: nat, p: Proc, sp: Space)
    requires k.Valid() && SlotAt(k, m, free, trampoline, p, sp)
    requires forall q | q in Holdings(p, sp) :: q in m && q in k.mem && k.mem[q] == m[q]
    requires Holdings(p, sp) !! ToSet(k.free)
    ensures SlotAt(k, k.mem, k.free, trampoline, p, sp)
  {
    hide WF;
    hide Freeable;
    hide Frames;
    hide ProcLeaves;
    hide Kmem.Valid;
    assert forall q | q in k.free :: q in ToSet(k.free);
    if p.pagetable != 0 {
      assert Owned(sp) <= Holdings(p, sp);
      assert sp.NodePages() <= Owned(sp);
      OwnsFrame(k, m, free, sp);
    }
  }

  /** Replacing what one slot holds by a balanced exchange with the free list keeps the partition. */
  lemma PartitionStep(pool: set<nat>, free: seq<nat>, procs: seq<Proc>, spaces: seq<Space>, i: nat, free': seq<nat>, p: Proc, sp: Space)
    requires Partition(pool, free, procs, spaces) && i < |procs|
    requires ToSet(free') + Holdings(p, sp) == ToSet(free) + Holdings(procs[i], spaces[i])
    requires ToSet(free') !! Holdings(p, sp)
    ensures Partition(pool, free', procs[i := p], spaces[i := sp])
  {
    hide ToSet;
    hide Holdings;
    var procs', spaces' := procs[i := p], spaces[i := sp];
    forall q ensures q in ToSet(free') + AllHoldings(procs', spaces') <==> q in pool {
      if q in ToSet(free') + AllHoldings(procs', spaces') {
        if q in ToSet(free') || q in Holdings(p, sp) {
          assert q in ToSet(free) + Holdings(procs[i], spaces[i]);
          if q in Holdings(procs[i], spaces[i]) {
            assert q in AllHoldings(procs, spaces);
          }
        } else {
          var j :| 0 <= j < |procs'| && q in Holdings(procs'[j], spaces'[j]);
          assert j != i && q in Holdings(procs[j], spaces[j]);
        }
      }
      if q in pool && q !in ToSet(free') && q !in Holdings(p, sp) {
        assert q !in ToSet(free) && q !in Holdings(procs[i], spaces[i]);
        var j :| 0 <= j < |procs| && q in Holdings(procs[j], spaces[j]);
        assert q in Holdings(procs'[j], spaces'[j]);
      }
      if q in Holdings(p, sp) {
        assert q in Holdings(procs'[i], spaces'[i]);
      }
    }
    forall j | 0 <= j < |procs| && j != i
      ensures Holdings(procs[j], spaces[j]) !! ToSet(free') + Holdings(p, sp)
    {
      assert Holdings(procs[j], spaces[j]) !! ToSet(free);
      assert Holdings(procs[j], spaces[j]) !! Holdings(procs[i], spaces[i]);
    }
  }

  /** The other slots stand while slot `i` changes within its own pages and the free ones. */
  lemma TableStep(k: Kmem, m: Mem, free: seq<nat>, trampoline: nat, pool: set<nat>, procs: seq<Proc>, spaces: seq<Space>, i: nat, p: Proc, sp: Space)
    requires k.Valid() && TableAt(k, m, free, trampoline, procs, spaces) && Partition(pool, free, procs, spaces) && i < |procs|
    requires ToSet(k.free) + Holdings(p, sp) == ToSet(free) + Holdings(procs[i], spaces[i])
    requires Same(m, k.mem, ToSet(free) + Holdings(procs[i], spaces[i]))
    requires SlotAt(k, k.mem, k.free, trampoline, p, sp)
    ensures TableAt(k, k.mem, k.free, trampoline, procs[i := p], spaces[i := sp])
    ensures Partition(pool, k.free, procs[i := p], spaces[i := sp])
  {
    hide ToSet;
    hide Holdings;
    hide SlotAt;
    hide Kmem.Valid;
    HoldingsManaged(k, k.mem, k.free, trampoline, p, sp);
    assert ToSet(k.free) !! Holdings(p, sp) by {
      forall q | q in Holdings(p, sp) ensures q !in ToSet(k.free) {
        InToSet(k.free, q);
      }
    }
    PartitionStep(pool, free, procs, spaces, i, k.free, p, sp);
    forall j | 0 <= j < |procs| && j != i
      ensures SlotAt(k, k.mem, k.free, trampoline, procs[j], spaces[j])
    {
      OtherSlot(k, m, free, trampoline, pool, procs, spaces, i, j);
    }
  }

  lemma OtherSlot(k: Kmem, m: Mem, free: seq<nat>, trampoline: nat, pool: set<nat>, procs: seq<Proc>, spaces: seq<Space>, i: nat, j: nat)
    requires k.Valid() && TableAt(k, m, free, trampoline, procs, spaces) && Partition(pool, free, procs, spaces)
    requires i < |procs| && j < |procs| && i != j
    requires ToSet(k.free) <= ToSet(free) + Holdings(procs[i], spaces[i])
    requires Same(m, k.mem, ToSet(free) + Holdings(procs[i], spaces[i]))
    ensures SlotAt(k, k.mem, k.free, trampoline, procs[j], spaces[j])
  {
    hide ToSet;
    hide Holdings;
    hide SlotAt;
    hide Kmem.Valid;
    assert Holdings(procs[i], spaces[i]) !! Holdings(procs[j], spaces[j]);
    HoldingsManaged(k, m, free, trampoline, procs[j], spaces[j]);
    forall q | q in Holdings(procs[j], spaces[j]) ensures q in m && q in k.mem && k.mem[q] == m[q] {
      ManagedInMem(k, q);
      assert q !in ToSet(free) + Holdings(procs[i], spaces[i]);
    }
    SlotFrame(k, m, free, trampoline, procs[j], spaces[j]);
  }

  /** kfree of one page beside an address space that may not exist yet. */
  method KfreePtr(k: Kmem, pa: nat, ghost has: bool, ghost sp: Space)
    requires k.Valid() && (has ==> Owns(k, sp) && pa / 4096 !in Owned(sp))
    requires pa % 4096 == 0 && k.Managed(pa / 4096) && pa / 4096 !in k.free
    modifies k
    ensures k.Valid() && (has ==> Owns(k, sp))
    ensures ToSet(k.free) == ToSet(old(k.free)) + {pa / 4096}
    ensures Same(old(k.mem), k.mem, {pa / 4096})
  {
    hide WF;
    hide Freeable;
    ghost var m: Mem := k.mem;
    if has {
      OwnedPages(k, sp);
    }
    k.Kfree(pa);
    PushSet(old(k.free), pa / 4096);
    if has {
      OwnsFrame(k, m, old(k.free), sp);
    }
  }

  /** A slot as allocproc fills it in. */
  function Fresh(pid: nat, pagetable: nat, trapframe: nat, trapframesv: nat): Proc {
    Proc(USED, pid, None, 0, pagetable, trapframe, trapframesv, 0, 0, 0, 0)
  }

  function Reset(p: Proc): Proc {
    p.(ticks := 0, ainterv := 0, handler := 0, hfl := 0)
  }

  /** Nothing changed but the alarm fields of slots that were and are UNUSED. */
  predicate OnlyReset(procs: seq<Proc>, procs': seq<Proc>) {
    && |procs'| == |procs|
    && forall j | 0 <= j < |procs| :: procs'[j] == procs[j] || (procs[j].state == UNUSED && procs'[j] == Reset(procs[j]))
  }

  lemma UnusedSlot(k: Kmem, m: Mem, free: seq<nat>, trampoline: nat, p: Proc, sp: Space)
    requires SlotAt(k, m, free, trampoline, p, sp) && p.state == UNUSED
    ensures Holdings(p, sp) == {} && p.(ticks := 0, ainterv := 0, handler := 0, hfl := 0) == NoProc
    ensures p == NoProc.(ticks := p.ticks, ainterv := p.ainterv, handler := p.handler, hfl := p.hfl)
  {
  }

  lemma UsedSlot(k: Kmem, trampoline: nat, pid: nat, sp: Space)
    ensures SlotAt(k, k.mem, k.free, trampoline, Fresh(pid, 0, 0, 0), sp) && Holdings(Fresh(pid, 0, 0, 0), sp) == {}
  {
  }

  /** A slot as freeproc leaves it. */
  function Cleared(p: Proc): Proc {
    p.(state := UNUSED, pid := 0, parent := None, sz := 0, pagetable := 0, trapframe := 0, trapframesv := 0)
  }

  const NoProc: Proc := Proc(UNUSED, 0, None, 0, 0, 0, 0, 0, 0, 0, 0)

  predicate HasUnused(procs: seq<Proc>) {
    exists i :: 0 <= i < |procs| && procs[i].state == UNUSED
  }

  /**
   * The free pages that forking a process of `sz` bytes takes: two trapframe pages and the three
   * tables of the fixed pages, a frame for each user page, and the tables these need besides.
   */
  ghost function ForkNeed(sz: nat): nat {
    5 + Pages(sz) + |TableIds(0, Pages(sz)) - FixedIds()|
  }

  lemma ForkNeeds(sp: Space, sz: nat)
    requires Ids(sp) == FixedIds()
    ensures ForkNeed(sz) == 5 + Need(sp, 0, Pages(sz))
  {
  }

  lemma ForkNeedFixed(sz: nat)
    ensures 5 <= ForkNeed(sz)
  {
  }

  class ProcTable {
    const k: Kmem
    const trampoline: nat        // physical address of the trampoline code, outside the pool
    ghost const pool: set<nat>   // the pages that processes and the free list share
    var procs: seq<Proc>
    var nextpid: nat
    ghost var spaces: seq<Space>

    ghost predicate Valid()
      reads this, k
    {
      && k.Valid()
      && trampoline % 4096 == 0 && trampoline / 4096 < MAXPPN
      && |pool| <= USERTOP
      && TableAt(k, k.mem, k.free, trampoline, procs, spaces)
      && Partition(pool, k.free, procs, spaces)
    }

    /** procinit: an empty table of `nproc` slots over the pages on the free list. */
    constructor (k: Kmem, trampoline: nat, nproc: nat)
      requires k.Valid() && |ToSet(k.free)| <= USERTOP
      requires trampoline % 4096 == 0 && trampoline / 4096 < MAXPPN
      ensures Valid() && pool == ToSet(k.free) && |procs| == nproc && nextpid == 1
      ensures this.k == k && this.trampoline == trampoline
      ensures forall i | 0 <= i < nproc :: procs[i].state == UNUSED
    {
      this.k, this.trampoline, this.pool := k, trampoline, ToSet(k.free);
      nextpid := 1;
      procs := seq(nproc, i => NoProc);
      spaces := seq(nproc, i => Space(map[], map[]));
      new;
      EmptyTable(k, trampoline, procs, spaces);
    }

    /**
     * freeproc: everything that hangs from the slot goes to the free list, the slot becomes UNUSED,
     * and no other page or slot changes.
     */
    method FreeProc(i: nat)
      requires Valid() && i < |procs| && procs[i].state != UNUSED
      modifies this`procs, this`spaces, k
      ensures Valid()
      ensures procs == old(procs)[i := Cleared(old(procs)[i])] && spaces == old(spaces)
      ensures var p := procs[i];
        && p.state == UNUSED && p.pid == 0 && p.parent == None && p.sz == 0
        && p.pagetable == 0 && p.trapframe == 0 && p.trapframesv == 0
      ensures ToSet(k.free) == ToSet(old(k.free)) + old(Holdings(procs[i], spaces[i]))
      ensures Same(old(k.mem), k.mem, old(Holdings(procs[i], spaces[i])))
      ensures InUse(procs) == InUse(old(procs)) - 1
    {
      hide ToSet;
      hide Holdings;
      hide Kmem.Valid;
      hide SlotAt;
      hide Partition;
      hide InUse;
      InUseUpdate(procs, i, Cleared(procs[i]));
      ghost var p, sp := procs[i], spaces[i];
      ghost var m: Mem, free := k.mem, k.free;
      TableSize(pool, free, procs, spaces);
      FreeHoldings(k, trampoline, procs[i], sp);
      ClearedSlot(k, trampoline, p, sp);
      TableStep(k, m, free, trampoline, pool, procs, spaces, i, Cleared(p), sp);
      procs := procs[i := Cleared(procs[i])];
      assert spaces == spaces[i := sp];
    }

    /** `(p->trapframe = kalloc()) == 0`, or the same for the saved trapframe. */
    method AllocTrapframe(i: nat, save: bool) returns (ok: bool)
      requires Valid() && i < |procs| && procs[i].state == USED && procs[i].pagetable == 0
      requires if save then procs[i].trapframesv == 0 else procs[i].trapframe == 0
      modifies this`procs, k
      ensures Valid()
      ensures !ok ==> procs == old(procs)
      ensures ok <==> old(k.free) != []
      ensures |k.free| == |old(k.free)| - if ok then 1 else 0
      ensures ok ==> exists pa: nat :: pa != 0 && procs == old(procs)[i := WithPtr(old(procs)[i], save, pa)]
      ensures ToSet(k.free) + Holdings(procs[i], spaces[i]) == ToSet(old(k.free)) + Holdings(old(procs)[i], spaces[i])
      ensures ToSet(k.free) <= ToSet(old(k.free))
      ensures Same(old(k.mem), k.mem, ToSet(old(k.free)))
    {
      hide ToSet;
      hide Partition;
      hide Chain;
      ghost var m: Mem, free := k.mem, k.free;
      ghost var p, sp := procs[i], spaces[i];
      TableSize(pool, free, procs, spaces);
      var pa := k.Kalloc();
      ok := pa != 0;
      if ok {
        ghost var page := pa / 4096;
        assert free == [page] + k.free;
        PushSet(k.free, page);
        assert page !in k.free by {
          ChainHead(m, old(k.freelist), free);
        }
        assert k.Managed(page) by { assert page in free; }
        PtrAdded(k, m, free, trampoline, p, sp, save, pa);
        TableStep(k, m, free, trampoline, pool, procs, spaces, i, WithPtr(p, save, pa), sp);
        procs := procs[i := WithPtr(procs[i], save, pa)];
        assert spaces == spaces[i := sp];
      }
    }

    /** `p->pagetable = proc_pagetable(p)` */
    method AllocPagetable(i: nat) returns (ok: bool)
      requires Valid() && i < |procs| && procs[i].state == USED && procs[i].pagetable == 0
      requires procs[i].trapframe != 0 && procs[i].trapframesv != 0
      modifies this`procs, this`spaces, k
      ensures Valid()
      ensures |spaces| == |procs| == |old(procs)| == |old(spaces)|
      ensures !ok ==> procs == old(procs) && spaces == old(spaces)
      ensures ok ==>
        && procs == old(procs)[i := old(procs)[i].(pagetable := spaces[i].RootPage() * 4096)] && procs[i].pagetable != 0
        && spaces == old(spaces)[i := spaces[i]]
        && spaces[i].leaf == HighPages(trampoline, procs[i].trapframe)
        && Ids(spaces[i]) == FixedIds()
      ensures ok <==> 3 <= |old(k.free)|
      ensures ok ==> |k.free| == |old(k.free)| - 3
      ensures ToSet(k.free) + Holdings(procs[i], spaces[i]) == ToSet(old(k.free)) + old(Holdings(procs[i], spaces[i]))
      ensures ToSet(k.free) <= ToSet(old(k.free))
      ensures Same(old(k.mem), k.mem, ToSet(old(k.free)))
    {
      hide ToSet;
      hide Partition;
      hide Owns;
      hide SlotAt;
      hide Kmem.Valid;
      hide Owned;
      ghost var m: Mem, free := k.mem, k.free;
      ghost var p, sp0 := procs[i], spaces[i];
      TableSize(pool, free, procs, spaces);
      SlotParts(k, m, free, trampoline, p, sp0);
      PtrBound(k, p.trapframe);
      var root;
      ghost var sp;
      root, sp := ProcPagetable(k, trampoline, procs[i].trapframe);
      ok := root != 0;
      ghost var sp1 := if ok then sp else sp0;
      PagetableAdded(k, m, free, trampoline, p, sp0, root, sp1);
      TableStep(k, m, free, trampoline, pool, procs, spaces, i, p.(pagetable := root), sp1);
      procs := procs[i := procs[i].(pagetable := root)];
      spaces := spaces[i := sp1];
    }

    /**
     * allocproc: the index of a slot made USED, with a new pid, both trapframe pages and a page
     * table of three pages; -1 exactly when the table is full or there are fewer than five free
     * pages, and then all pages are back and at most the alarm fields of one UNUSED slot were reset.
     */
    method AllocProc() returns (r: int)
      requires Valid()
      modifies this`procs, this`spaces, this`nextpid, k
      ensures Valid()
      ensures -1 <= r < |procs| && |procs| == |old(procs)| == |spaces| == |old(spaces)|
      ensures nextpid == old(nextpid) + if HasUnused(old(procs)) then 1 else 0
      ensures Same(old(k.mem), k.mem, ToSet(old(k.free))) && ToSet(k.free) <= ToSet(old(k.free))
      ensures r == -1 <==> !HasUnused(old(procs)) || |old(k.free)| < 5
      ensures r == -1 ==> ToSet(k.free) == ToSet(old(k.free)) && spaces == old(spaces) && OnlyReset(old(procs), procs)
      ensures r >= 0 ==> |k.free| == |old(k.free)| - 5 && Ids(spaces[r]) == FixedIds()
      ensures r >= 0 ==>
        && procs[r].state == USED && procs[r].pid == old(nextpid) && procs[r].parent == None && procs[r].sz == 0
        && procs[r].ticks == 0 && procs[r].ainterv == 0 && procs[r].handler == 0 && procs[r].hfl == 0
      ensures r >= 0 ==>
        && nextpid == old(nextpid) + 1
        && old(procs)[r].state == UNUSED && procs == old(procs)[r := procs[r]]
        && (forall j | 0 <= j < r :: old(procs)[j].state != UNUSED)
        && procs[r] == Fresh(old(nextpid), procs[r].pagetable, procs[r].trapframe, procs[r].trapframesv)
        && procs[r].pagetable != 0
        && spaces == old(spaces)[r := spaces[r]]
        && spaces[r].leaf == HighPages(trampoline, procs[r].trapframe)
        && ToSet(k.free) + Holdings(procs[r], spaces[r]) == ToSet(old(k.free))
    {
      hide ToSet;
      hide Holdings;
      hide Partition;
      hide SlotAt;
      hide Kmem.Valid;
      TableSize(pool, k.free, procs, spaces);
      var i := 0;
      while i < |procs| && procs[i].state != UNUSED
        invariant 0 <= i <= |procs| && forall j | 0 <= j < i :: procs[j].state != UNUSED
      {
        i := i + 1;
      }
      if i == |procs| {
        return -1;
      }
      var pid := nextpid;
      nextpid := nextpid + 1;
      ghost var p, sp := procs[i], spaces[i];
      UnusedSlot(k, k.mem, k.free, trampoline, p, sp);
      UsedSlot(k, trampoline, pid, sp);
      TableStep(k, k.mem, k.free, trampoline, pool, procs, spaces, i, Fresh(pid, 0, 0, 0), sp);
      procs := procs[i := procs[i].(pid := pid, state := USED, ticks := 0, ainterv := 0, handler := 0, hfl := 0)];
      assert procs == old(procs)[i := Fresh(pid, 0, 0, 0)];
      assert spaces == spaces[i := sp];
      var ok := SetUp(i);
      if !ok {
        FreeProc(i);
        assert procs == old(procs)[i := Reset(p)];
        return -1;
      }
      r := i;
    }

    /** The three allocations of allocproc; the first that fails ends it. */
    method SetUp(i: nat) returns (ok: bool)
      requires Valid() && i < |procs| && |spaces| == |procs| && procs[i] == Fresh(procs[i].pid, 0, 0, 0)
      requires Holdings(procs[i], spaces[i]) == {}
      modifies this`procs, this`spaces, k
      ensures Valid() && |procs| == |old(procs)| == |spaces| == |old(spaces)|
      ensures procs == old(procs)[i := Fresh(old(procs)[i].pid, procs[i].pagetable, procs[i].trapframe, procs[i].trapframesv)]
      ensures !ok ==> spaces == old(spaces) && procs[i].pagetable == 0
      ensures ok ==>
        && procs[i].pagetable != 0
        && spaces == old(spaces)[i := spaces[i]]
        && spaces[i].leaf == HighPages(trampoline, procs[i].trapframe)
        && |k.free| == |old(k.free)| - 5 && Ids(spaces[i]) == FixedIds()
      ensures ok <==> 5 <= |old(k.free)|
      ensures ToSet(k.free) + Holdings(procs[i], spaces[i]) == ToSet(old(k.free))
      ensures ToSet(k.free) <= ToSet(old(k.free))
      ensures Same(old(k.mem), k.mem, ToSet(old(k.free)))
    {
      hide ToSet;
      hide Holdings;
      hide Partition;
      hide TableAt;
      hide Kmem.Valid;
      ok := AllocTrapframe(i, false);
      if !ok {
        return;
      }
      ok := AllocTrapframe(i, true);
      if !ok {
        return;
      }
      ok := AllocPagetable(i);
    }

    /**
     * growproc: on success the size moves by `n`, new pages are zeroed and pages that stay keep
     * their contents; a shrink below zero changes nothing.  It fails exactly when there are fewer
     * free pages than new pages and missing tables, and then neither size nor mappings change.  No growth reaches the fixed high pages, since the pool is too small for that.
     */
    method GrowProc(i: nat, n: int) returns (r: int)
      requires Valid() && i < |procs| && procs[i].state == RUNNING
      requires -0x8000_0000 <= n < 0x8000_0000
      modifies this`procs, this`spaces, k
      ensures Valid() && |procs| == |old(procs)| == |spaces| == |old(spaces)|
      ensures procs == old(procs)[i := old(procs)[i].(sz := procs[i].sz)]
      ensures spaces == old(spaces)[i := spaces[i]]
      ensures ToSet(k.free) + Holdings(procs[i], spaces[i]) == ToSet(old(k.free)) + old(Holdings(procs[i], spaces[i]))
      ensures Resized(old(k.mem), old(k.free), old(spaces)[i], old(procs)[i].sz, n, r, k.mem, k.free, spaces[i], procs[i].sz)
    {
      hide ToSet;
      hide TablesAt;
      hide Pages;
      hide Holdings;
      hide Partition;
      hide SlotAt;
      hide Kmem.Valid;
      hide Owns;
      hide Grown;
      hide Kept;
      hide Without;
      hide Balanced;
      hide ProcLeaves;
      hide Owned;
      hide Same;
      hide Chain;
      hide Resized;
      TableSize(pool, k.free, procs, spaces);
      hide Need;
      ghost var m: Mem, free := k.mem, k.free;
      ghost var p, sp := procs[i], spaces[i];
      LiveSlot(k, m, free, trampoline, p, sp);
      var sz;
      ghost var sp';
      SzLeaves(sp, p.sz, trampoline, p.trapframe);
      PoolBound(k, pool, free, procs, spaces, i);
      sz, sp', r := Resize(k, procs[i].pagetable, procs[i].sz, n, trampoline, p, sp);
      OwnedPages(k, sp');
      ResizedSlot(k, m, free, trampoline, p, sp, sz, sp');
      SameWider(m, k.mem, ToSet(free) + Owned(sp), ToSet(free) + Holdings(p, sp));
      TableStep(k, m, free, trampoline, pool, procs, spaces, i, p.(sz := sz), sp');
      procs := procs[i := procs[i].(sz := sz)];
      spaces := spaces[i := sp'];
    }

    /**
     * sbrk(PGSIZE) and sbrk(-PGSIZE) seen through sysinfo.  Both succeed exactly when there are free
     * pages for the new page and for the tables it lacks; those tables stay.  So freemem goes down by
     * one page and up again exactly when the tables were there before, and the mapping is what it was.
     */
    method SbrkPage(i: nat) returns (before: int, during: int, after: int, ok: bool)
      requires Valid() && i < |procs| && procs[i].state == RUNNING && |spaces| == |procs|
      requires 4096 * |k.free| < 0x8000_0000
      modifies this`procs, this`spaces, k
      ensures Valid() && before == 4096 * |old(k.free)|
      ensures procs == old(procs) && |spaces| == |old(spaces)|
      ensures spaces == old(spaces)[i := spaces[i]] && spaces[i].leaf == old(spaces)[i].leaf
      ensures ok <==> PageNeed(old(procs)[i], old(spaces)[i]) <= |old(k.free)|
      ensures ok ==> during == before - 4096 * PageNeed(old(procs)[i], old(spaces)[i]) && after == during + 4096
      ensures ok ==> (during == before - 4096 && after == before <==> HasTable(old(spaces)[i], Pages(old(procs)[i].sz)))
    {
      hide ToSet;
      hide Holdings;
      hide Partition;
      hide SlotAt;
      hide Grown;
      hide Kept;
      hide Without;
      hide Kmem.Valid;
      hide TablesAt;
      hide HasTable;
      hide Need;
      ghost var sz := procs[i].sz;
      PageMore(sz);
      TablesNeed(k, trampoline, procs[i], spaces[i], Pages(sz));
      before := k.GetBytes();
      during, after := before, before;
      var r := GrowProc(i, 4096);
      ok := r == 0;
      if ok {
        during := k.GetBytes();
        GrownBack(k.mem, old(spaces)[i], spaces[i], Pages(sz), Pages(sz + 4096), UserFlags(PTE_W));
        r := GrowProc(i, -4096);
        after := k.GetBytes();
      }
    }

    /** getnprcs: the number of slots that are not UNUSED. */
    method GetNprcs() returns (cnt: nat)
      ensures cnt == |InUseSlots(procs)|
    {
      cnt := 0;
      var i := 0;
      while i < |procs|
        invariant 0 <= i <= |procs| && cnt == InUse(procs[..i])
      {
        assert procs[..i + 1] == procs[..i] + [procs[i]];
        if procs[i].state != UNUSED {
          cnt := cnt + 1;
        }
        i := i + 1;
      }
      assert procs[..i] == procs;
      InUseSet(procs);
    }

    /** copyout to process `i`, as wait and sysinfo call it: the table and every page's owner stand. */
    method CopyOut(i: nat, va: nat, src: seq<Byte>) returns (r: int)
      requires Valid() && i < |procs| && |spaces| == |procs| && procs[i].pagetable != 0
      modifies k
      ensures Valid() && k.free == old(k.free)
      ensures (k.mem, r) == UserIo.Out(old(k.mem), spaces[i].leaf, va, src)
      ensures r == 0 ==> UserIo.In(k.mem, spaces[i].leaf, va, |src|) == (src, 0)
    {
      hide SlotAt;
      hide Holdings;
      hide ToSet;
      hide Partition;
      hide Kmem.Valid;
      hide Tree;
      hide UserIo.UserPages;
      hide UserIo.Out;
      ghost var m: Mem, free := k.mem, k.free;
      UserFramesHeld(k, m, free, trampoline, procs[i], spaces[i]);
      SlotTree(k, trampoline, procs[i], spaces[i]);
      CopyOutKeeps(k, m, free, trampoline, pool, procs, spaces, i, va, src);
      r := UserIo.CopyOut(k, procs[i].pagetable, va, src, spaces[i]);
      TreeValid(k, spaces[i]);
    }

    /**
     * sysinf: the two 64-bit words freemem and nproc arrive at `addr`, exactly when the 16 bytes
     * there are writable.
     */
    method SysInf(i: nat, addr: nat) returns (r: int)
      requires Valid() && i < |procs| && |spaces| == |procs| && procs[i].pagetable != 0
      modifies k
      ensures Valid() && k.free == old(k.free)
      ensures r == 0 <==> forall a: nat | addr <= a < addr + 16 :: Writable(old(k.mem), spaces[i].leaf, a / 4096)
      ensures var st := Bytes(U64(Kalloc.Int32(4096 * |k.free|)), 8) + Bytes(|InUseSlots(procs)|, 8);
        r == 0 ==> UserIo.In(k.mem, spaces[i].leaf, addr, 16) == (st, 0)
    {
      hide SlotAt;
      hide Partition;
      hide Kmem.Valid;
      hide TableAt;
      hide UserIo.Out;
      hide UserIo.In;
      hide Bytes;
      hide U64;
      var freemem := k.GetBytes();
      var nproc := GetNprcs();
      var st := Bytes(U64(freemem), 8) + Bytes(nproc, 8);
      UserIo.OutSucceeds(k.mem, spaces[i].leaf, addr, st);
      r := CopyOut(i, addr, st);
    }

    /** uvmcopy from process `p` to the new process `c`, and `np->sz = p->sz` when it succeeds. */
    method CopyMemory(p: nat, c: nat) returns (r: int)
      requires Valid() && p < |procs| && c < |procs| && p != c && |spaces| == |procs|
      requires procs[p].state == RUNNING
      requires procs[c] == Fresh(procs[c].pid, procs[c].pagetable, procs[c].trapframe, procs[c].trapframesv)
      requires procs[c].pagetable != 0 && spaces[c].leaf == HighPages(trampoline, procs[c].trapframe)
      modifies this`procs, this`spaces, k
      ensures Valid() && |procs| == |old(procs)| == |spaces|
      ensures r == 0 || r == -1
      ensures r == 0 <==> Need(old(spaces)[c], 0, Pages(procs[p].sz)) <= |old(k.free)|
      ensures procs == old(procs)[c := old(procs)[c].(sz := if r == 0 then procs[p].sz else 0)]
      ensures spaces == old(spaces)[c := spaces[c]]
      ensures r == 0 ==> forall v: nat | v < Pages(procs[p].sz) :: CopiedPage(old(k.mem), k.mem, spaces[p], spaces[c], v)
      ensures r == 0 ==> Without(spaces[c].leaf, 0, Pages(procs[p].sz)) == HighPages(trampoline, procs[c].trapframe)
      ensures ToSet(k.free) + Holdings(procs[c], spaces[c]) == ToSet(old(k.free)) + old(Holdings(procs[c], spaces[c]))
      ensures Same(old(k.mem), k.mem, ToSet(old(k.free)) + old(Holdings(procs[c], spaces[c])))
    {
      hide ToSet;
      hide Holdings;
      hide Partition;
      hide SlotAt;
      hide Kmem.Valid;
      hide Owns;
      hide Owned;
      hide HighPages;
      hide CopiedPage;
      hide ProcLeaves;
      hide Without;
      hide Pages;
      hide Need;
      ghost var m: Mem, free := k.mem, k.free;
      ghost var parent, child := spaces[p], spaces[c];
      ghost var pp, pc := procs[p], procs[c];
      LiveSlot(k, m, free, trampoline, pp, parent);
      NewSlot(k, m, free, trampoline, pc, child);
      Strangers(pool, free, procs, spaces, p, c, trampoline);
      SzLeaves(parent, pp.sz, trampoline, pp.trapframe);
      ghost var child';
      r, child' := UvmCopy(k, procs[p].pagetable, procs[c].pagetable, procs[p].sz, parent, child);
      var sz := if r == 0 then procs[p].sz else 0;
      CopiedLeaves(m, k.mem, parent, child, child', r, pp.sz, trampoline, pp.trapframe, pc.trapframe);
      OwnedPages(k, child');
      ResizedSlot(k, m, free, trampoline, pc, child, sz, child');
      NodesHeld(pc, child);
      TableStep(k, m, free, trampoline, pool, procs, spaces, c, pc.(sz := sz), child');
      procs := procs[c := procs[c].(sz := sz)];
      spaces := spaces[c := child'];
    }

    /** `*(np->trapframe) = *(p->trapframe); np->trapframe->a0 = 0` */
    method CopyTrapframe(p: nat, c: nat)
      requires Valid() && p < |procs| && c < |procs| && p != c && |spaces| == |procs|
      requires procs[p].state == RUNNING && procs[c].pagetable != 0
      modifies k
      ensures Valid() && k.free == old(k.free)
      ensures procs[p].trapframe / 4096 in old(k.mem) && procs[c].trapframe / 4096 in old(k.mem)
      ensures k.mem == old(k.mem)[procs[c].trapframe / 4096 :=
        ForkedTrapframe(old(k.mem)[procs[p].trapframe / 4096], old(k.mem)[procs[c].trapframe / 4096])]
    {
      hide ToSet;
      hide Holdings;
      hide Partition;
      hide SlotAt;
      hide Owns;
      hide Chain;
      hide ForkedTrapframe;
      ghost var m: Mem, free := k.mem, k.free;
      TrapframePage(k, m, free, trampoline, procs[p], spaces[p]);
      TrapframePage(k, m, free, trampoline, procs[c], spaces[c]);
      var from, to := procs[p].trapframe / 4096, procs[c].trapframe / 4096;
      k.SetPage(to, ForkedTrapframe(k.mem[from], k.mem[to]));
      TableSize(pool, free, procs, spaces);
      TrapframeFilled(k, m, free, trampoline, procs[c], spaces[c], to);
      TableStep(k, m, free, trampoline, pool, procs, spaces, c, procs[c], spaces[c]);
      assert procs == procs[c := procs[c]] && spaces == spaces[c := spaces[c]];
    }

    /** `np->parent = p; np->state = RUNNABLE` */
    method Launch(p: nat, c: nat)
      requires Valid() && p < |procs| && c < |procs| && |spaces| == |procs|
      requires procs[c].state == USED && procs[c].pagetable != 0
      modifies this`procs
      ensures Valid() && procs == old(procs)[c := old(procs)[c].(state := RUNNABLE, parent := Some(p))]
    {
      hide ToSet;
      hide Holdings;
      hide Partition;
      hide SlotAt;
      hide Kmem.Valid;
      StartedSlot(k, trampoline, procs[c], spaces[c], p);
      TableStep(k, k.mem, k.free, trampoline, pool, procs, spaces, c, procs[c].(state := RUNNABLE, parent := Some(p)), spaces[c]);
      procs := procs[c := procs[c].(state := RUNNABLE, parent := Some(p))];
      assert spaces == spaces[c := spaces[c]];
    }

    /**
     * The assignments to p->state of the scheduler, yield, sleep, wakeup, kill and exit: none of
     * them moves a page.
     */
    method SetState(i: nat, st: ProcState)
      requires Valid() && i < |procs| && st != UNUSED && st != USED
      requires procs[i].state != UNUSED && procs[i].state != USED
      modifies this`procs
      ensures Valid() && procs == old(procs)[i := old(procs)[i].(state := st)]
    {
      hide ToSet;
      hide Holdings;
      hide Partition;
      hide SlotAt;
      hide Kmem.Valid;
      TableSize(pool, k.free, procs, spaces);
      SameHoldings(k, k.mem, k.free, trampoline, procs[i], spaces[i], st);
      TableStep(k, k.mem, k.free, trampoline, pool, procs, spaces, i, procs[i].(state := st), spaces[i]);
      procs := procs[i := procs[i].(state := st)];
      assert spaces == spaces[i := spaces[i]];
    }

    /**
     * fork up to `np->sz = p->sz`: the index of the new slot, which has copies of all pages of `p`,
     * or -1 with every page back on the free list.
     */
    method ForkMemory(p: nat) returns (c: int)
      requires Valid() && p < |procs| && procs[p].state == RUNNING
      modifies this`procs, this`spaces, this`nextpid, k
      ensures Valid() && |procs| == |old(procs)| == |spaces| == |old(spaces)| && -1 <= c < |procs|
      ensures nextpid == old(nextpid) + if HasUnused(old(procs)) then 1 else 0
      ensures Same(old(k.mem), k.mem, ToSet(old(k.free)))
      ensures c == -1 <==> !HasUnused(old(procs)) || |old(k.free)| < ForkNeed(old(procs)[p].sz)
      ensures c == -1 ==> ToSet(k.free) == ToSet(old(k.free)) && OnlyReset(old(procs), procs)
      ensures c == -1 ==> forall j | 0 <= j < |procs| && old(procs)[j].state != UNUSED :: spaces[j] == old(spaces)[j]
      ensures c != -1 ==>
        && c != p && old(procs)[c].state == UNUSED && nextpid == old(nextpid) + 1
        && (forall j | 0 <= j < c :: old(procs)[j].state != UNUSED)
        && procs == old(procs)[c := procs[c]] && spaces == old(spaces)[c := spaces[c]]
        && procs[c] == Fresh(old(nextpid), procs[c].pagetable, procs[c].trapframe, procs[c].trapframesv).(sz := procs[p].sz)
        && procs[c].pagetable != 0 && procs[c].trapframe / 4096 in ToSet(old(k.free))
        && Without(spaces[c].leaf, 0, Pages(procs[p].sz)) == HighPages(trampoline, procs[c].trapframe)
      ensures c != -1 ==> forall v: nat | v < Pages(procs[p].sz) :: CopiedPage(old(k.mem), k.mem, spaces[p], spaces[c], v)
    {
      hide ToSet;
      hide Holdings;
      hide Partition;
      hide SlotAt;
      hide OwnsAt;
      hide Kmem.Valid;
      hide HighPages;
      hide CopiedPage;
      hide Without;
      hide Pages;
      hide Chain;
      hide WF;
      hide TablesAt;
      hide Need;
      hide ForkNeed;
      hide HasUnused;
      hide Ids;
      hide Same;
      hide Owned;
      hide ProcLeaves;
      ghost var procs0, spaces0, m0: Mem, free0 := procs, spaces, k.mem, k.free;
      TableSize(pool, free0, procs, spaces);
      ParentBefore(k, m0, free0, trampoline, procs[p], spaces[p]);
      ForkNeedFixed(procs[p].sz);
      c := AllocProc();
      if c < 0 {
        return;
      }
      ghost var m1: Mem := k.mem;
      ForkNeeds(spaces[c], procs[p].sz);
      var ok := CopyMemory(p, c);
      SameTrans(m0, m1, k.mem, ToSet(free0), ToSet(free0));
      ghost var m2: Mem := k.mem;
      if ok < 0 {
        ghost var held := Holdings(procs[c], spaces[c]);
        FreeProc(c);
        SameTrans(m0, m2, k.mem, ToSet(free0), held);
        UnusedSlot(k, m0, free0, trampoline, procs0[c], spaces0[c]);
        assert procs[c] == Reset(procs0[c]);
        return -1;
      }
      TrapframePage(k, k.mem, k.free, trampoline, procs[c], spaces[c]);
      CopyHeld(k, m0, free0, m1, k.mem, procs[p].sz, spaces[p], spaces[c]);
    }

    /**
     * fork: on success one UNUSED slot becomes a RUNNABLE child of `p` with a fresh pid, copies of
     * all pages of `p` and of its trapframe, a0 cleared.  It fails exactly when the table is full or
     * there are fewer free pages than the child needs, and then every page is back on the free
     * list.  Either way no page that was in use is touched and no live process changes.
     */
    method Fork(p: nat) returns (r: int, ghost child: nat)
      requires Valid() && p < |procs| && procs[p].state == RUNNING
      modifies this`procs, this`spaces, this`nextpid, k
      ensures Valid() && |procs| == |old(procs)| == |spaces| == |old(spaces)|
      ensures nextpid == old(nextpid) + if HasUnused(old(procs)) then 1 else 0
      ensures Same(old(k.mem), k.mem, ToSet(old(k.free)))
      ensures forall j | 0 <= j < |procs| && old(procs)[j].state != UNUSED :: procs[j] == old(procs)[j] && spaces[j] == old(spaces)[j]
      ensures r == -1 <==> !HasUnused(old(procs)) || |old(k.free)| < ForkNeed(old(procs)[p].sz)
      ensures r == -1 ==> ToSet(k.free) == ToSet(old(k.free)) && OnlyReset(old(procs), procs)
      ensures r != -1 ==>
        && child < |procs| && old(procs)[child].state == UNUSED
        && (forall j | 0 <= j < child :: old(procs)[j].state != UNUSED)
        && r == old(nextpid) && nextpid == r + 1
        && procs == old(procs)[child := procs[child]]
        && procs[child] == Fresh(r, procs[child].pagetable, procs[child].trapframe, procs[child].trapframesv)
             .(state := RUNNABLE, parent := Some(p), sz := old(procs)[p].sz)
      ensures InUse(procs) == InUse(old(procs)) + if r == -1 then 0 else 1
      ensures r != -1 ==> CopyOf(old(k.mem), k.mem, old(procs)[p], old(spaces)[p], procs[child], spaces[child], trampoline)
    {
      hide ToSet;
      hide Holdings;
      hide Partition;
      hide SlotAt;
      hide OwnsAt;
      hide Kmem.Valid;
      hide HighPages;
      hide CopiedPage;
      hide ForkedTrapframe;
      hide Without;
      hide Pages;
      hide InUse;
      hide CopyOf;
      hide ForkNeed;
      hide HasUnused;
      ghost var procs0, m0: Mem, free0 := procs, k.mem, k.free;
      TableSize(pool, free0, procs, spaces);
      ParentBefore(k, m0, free0, trampoline, procs[p], spaces[p]);
      var c := ForkMemory(p);
      child := 0;
      if c < 0 {
        InUseReset(procs0, procs);
        return -1, child;
      }
      child := c;
      ghost var m2: Mem := k.mem;
      CopyTrapframe(p, c);
      Launch(p, c);
      CopyMade(k, trampoline, m0, free0, m2, k.mem, k.free, procs[p], spaces[p], procs[c], spaces[c]);
      r := procs[c].pid;
      InUseUpdate(procs0, c, procs[c]);
    }
  }

  /** How many slots are not UNUSED. */
  function InUse(procs: seq<Proc>): nat {
    if procs == [] then 0
    else InUse(procs[..|procs| - 1]) + if procs[|procs| - 1].state == UNUSED then 0 else 1
  }

  function InUseSlots(procs: seq<Proc>): set<nat> {
    set i: nat | i < |procs| && procs[i].state != UNUSED
  }

  /** The count is the size of the set of slots in use. */
  lemma {:induction false} InUseSet(procs: seq<Proc>)
    ensures InUse(procs) == |InUseSlots(procs)|
  {
    if procs != [] {
      var n := |procs| - 1;
      InUseSet(procs[..n]);
      if procs[n].state == UNUSED {
        assert InUseSlots(procs) == InUseSlots(procs[..n]);
      } else {
        assert InUseSlots(procs) == InUseSlots(procs[..n]) + {n};
        assert n !in InUseSlots(procs[..n]);
      }
    }
  }

  /** Changing one slot changes the count by what that slot contributes. */
  lemma {:induction false} InUseUpdate(procs: seq<Proc>, i: nat, p: Proc)
    requires i < |procs|
    ensures InUse(procs[i := p]) + (if procs[i].state == UNUSED then 0 else 1) == InUse(procs) + if p.state == UNUSED then 0 else 1
  {
    var n := |procs| - 1;
    if i < n {
      InUseUpdate(procs[..n], i, p);
      assert procs[i := p][..n] == procs[..n][i := p];
    } else {
      assert procs[i := p][..n] == procs[..n];
    }
  }

  /** Resetting the alarm fields of UNUSED slots does not change the count. */
  lemma {:induction false} InUseReset(procs: seq<Proc>, procs': seq<Proc>)
    requires OnlyReset(procs, procs')
    ensures InUse(procs') == InUse(procs)
  {
    if procs != [] {
      InUseReset(procs[..|procs| - 1], procs'[..|procs| - 1]);
    }
  }

  /** The free pages that the next page of the process takes: its own, and one for each table it lacks. */
  ghost function PageNeed(p: Proc, sp: Space): int {
    Need(sp, Pages(p.sz), Pages(p.sz) + 1)
  }

  /** One free page is enough exactly when the tables are in place. */
  lemma TablesNeed(k: Kmem, trampoline: nat, p: Proc, sp: Space, v: nat)
    requires k.Valid() && SlotAt(k, k.mem, k.free, trampoline, p, sp) && p.state == RUNNING
    ensures Need(sp, v, v + 1) >= 1 && (Need(sp, v, v + 1) == 1 <==> HasTable(sp, v))
  {
    hide ProcLeaves;
    hide Holds;
    hide GoodLeaf;
    hide Frames;
    hide Missing;
    NoneMissing(sp, v);
  }

  lemma PageMore(sz: nat)
    ensures Pages(sz + 4096) == Pages(sz) + 1
  {
  }

  /** Unmapping what was grown restores the leaf map. */
  lemma GrownBack(m: Mem, sp: Space, sp': Space, lo: nat, hi: nat, flags: nat)
    requires Grown(m, sp, sp', lo, hi, flags)
    ensures Without(sp'.leaf, lo, hi) == sp.leaf
  {
  }

  lemma LiveSlot(k: Kmem, m: Mem, free: seq<nat>, trampoline: nat, p: Proc, sp: Space)
    requires k.Valid() && m == k.mem && free == k.free && SlotAt(k, m, free, trampoline, p, sp)
    requires p.state != UNUSED && p.state != USED
    ensures p.pagetable != 0 && Owns(k, sp) && p.pagetable == sp.RootPage() * 4096
    ensures ProcLeaves(sp, p.sz, trampoline, p.trapframe)
    ensures p.trapframe != 0 && p.trapframe % 4096 == 0 && p.trapframe / 4096 in Holdings(p, sp)
    ensures Owned(sp) <= Holdings(p, sp) && Owned(sp) !! ToSet(free)
  {
    hide WF;
    hide ProcLeaves;
    OwnedPages(k, sp);
  }

  /** Pages that stay mapped keep their frame and contents. */
  ghost predicate Kept(m: Mem, m': Mem, sp: Space, sp': Space) {
    forall v: nat | v in sp.leaf && v in sp'.leaf && v < USERTOP ::
      && sp'.leaf[v] == sp.leaf[v] && sp.leaf[v].frame in m && sp.leaf[v].frame in m'
      && m'[sp.leaf[v].frame] == m[sp.leaf[v].frame]
  }

  /** The branch of growproc for n > 0. */
  method GrowBy(k: Kmem, root: nat, sz0: nat, n: nat, ghost trampoline: nat, ghost trapframe: nat, ghost sp: Space)
    returns (sz: nat, ghost sp': Space, r: int)
    requires Owns(k, sp) && root == sp.RootPage() * 4096 && ProcLeaves(sp, sz0, trampoline, trapframe)
    requires Pages(sz0) + |k.free| <= USERTOP && 0 < n < 0x8000_0000
    modifies k
    ensures Owns(k, sp') && sp'.RootPage() == sp.RootPage() && Balanced(old(k.free), sp, k.free, sp')
    ensures r == if |old(k.free)| < Need(sp, Pages(sz0), Pages(sz0 + n)) then -1 else 0
    ensures sz == (if r == 0 then sz0 + n else sz0) && ProcLeaves(sp', sz, trampoline, trapframe)
    ensures Same(old(k.mem), k.mem, ToSet(old(k.free)) + Owned(sp))
    ensures r == -1 ==> sp'.leaf == sp.leaf
    ensures r == 0 ==> Grown(k.mem, sp, sp', Pages(sz0), Pages(sz), UserFlags(PTE_W))
    ensures r == 0 ==> forall u: nat | Pages(sz0) <= u < Pages(sz) :: Writable(k.mem, sp'.leaf, u)
    ensures Kept(old(k.mem), k.mem, sp, sp')
    ensures r == 0 ==> |k.free| == |old(k.free)| - Need(sp, Pages(sz0), Pages(sz))
    ensures r == 0 && TablesAt(sp, Pages(sz0), Pages(sz)) ==> sp'.nodes == sp.nodes
  {
    hide TablesAt;
    hide Need;
    hide Owns;
    hide ToSet;
    hide Owned;
    hide Frames;
    hide Without;
    hide Balanced;
    hide ProcLeaves;
    hide Pages;
    hide U64;
    hide Kept;
    hide Grown;
    ghost var m: Mem, free := k.mem, k.free;
    SzLeaves(sp, sz0, trampoline, trapframe);
    OwnsNow(k, sp);
    NodesOwned(sp);
    KeptSame(k, m, free, sp);
    SzFits(sp, sz0, trampoline, trapframe, |free|);
    ghost var ok;
    sz, ok, sp' := UvmAlloc(k, root, sz0, sz0 + n, PTE_W, sp);
    if sz == 0 {
      KeptGrown(k, m, free, sp, k.mem, sp', 0, 0);
      SameLeaves(sp, sp', sz0, trampoline, trapframe);
      return sz0, sp', -1;
    }
    GrownBack(k.mem, sp, sp', Pages(sz0), Pages(sz), UserFlags(PTE_W));
    KeptGrown(k, m, free, sp, k.mem, sp', Pages(sz0), Pages(sz));
    GrownLeaves(k.mem, sp, sp', sz0, sz, trampoline, trapframe);
    r := 0;
  }

  /** The branch of growproc for n < 0. */
  method ShrinkBy(k: Kmem, root: nat, sz0: nat, n: int, ghost trampoline: nat, ghost trapframe: nat, ghost sp: Space)
    returns (sz: nat, ghost sp': Space)
    requires Owns(k, sp) && root == sp.RootPage() * 4096 && ProcLeaves(sp, sz0, trampoline, trapframe)
    requires -0x8000_0000 <= n < 0
    modifies k
    ensures Owns(k, sp') && sp'.nodes == sp.nodes && Balanced(old(k.free), sp, k.free, sp')
    ensures sz == (if 0 <= sz0 + n then sz0 + n else sz0) && ProcLeaves(sp', sz, trampoline, trapframe)
    ensures Same(old(k.mem), k.mem, ToSet(old(k.free)) + Owned(sp))
    ensures sz0 + n < 0 ==> sp'.leaf == sp.leaf
    ensures 0 <= sz0 + n ==>
      && sp'.leaf == Without(sp.leaf, Pages(sz), Pages(sz0))
      && |k.free| == |old(k.free)| + (Pages(sz0) - Pages(sz))
    ensures Kept(old(k.mem), k.mem, sp, sp')
  {
    hide TablesAt;
    hide Need;
    hide Owns;
    hide ToSet;
    hide Owned;
    hide Frames;
    hide Without;
    hide Balanced;
    hide ProcLeaves;
    hide Pages;
    hide U64;
    hide Kept;
    ghost var m: Mem, free := k.mem, k.free;
    SzLeaves(sp, sz0, trampoline, trapframe);
    OwnsNow(k, sp);
    NodesOwned(sp);
    KeptSame(k, m, free, sp);
    SzShrinks(sz0, n);
    sz, sp' := UvmDealloc(k, root, sz0, U64(sz0 + n), sp);
    if U64(sz0 + n) < sz0 {
      SzFrames(sp, sz, sz0);
      KeptShrunk(k, m, free, sp, k.mem, sp', Pages(sz), Pages(sz0));
      ShrunkLeaves(sp, sp', sz0, sz, trampoline, trapframe);
    } else {
      KeptGrown(k, m, free, sp, k.mem, sp', 0, 0);
      SameLeaves(sp, sp', sz0, trampoline, trapframe);
    }
  }

  /** What growproc(n) does to the size, the mappings, the contents and the free pages of a process, and when it fails. */
  ghost predicate Resized(m: Mem, free: seq<nat>, sp: Space, sz0: nat, n: int, r: int, m': Mem, free': seq<nat>, sp': Space, sz: nat) {
    && (r == 0 || r == -1)
    && (r == -1 <==> 0 < n && |free| < Need(sp, Pages(sz0), Pages(sz0 + n)))
    && sz == (if r == 0 && 0 <= sz0 + n then sz0 + n else sz0)
    && (r == -1 || n == 0 || sz0 + n < 0 ==> sp'.leaf == sp.leaf)
    && (r == 0 && 0 < n ==> Grown(m', sp, sp', Pages(sz0), Pages(sz), UserFlags(PTE_W)))
    && (r == 0 && 0 < n ==> forall u: nat | Pages(sz0) <= u < Pages(sz) :: Writable(m', sp'.leaf, u))
    && (n < 0 <= sz0 + n ==>
          && sp'.leaf == Without(sp.leaf, Pages(sz), Pages(sz0))
          && |free'| == |free| + (Pages(sz0) - Pages(sz)) && sp'.nodes == sp.nodes)
    && (r == 0 && 0 < n ==> |free'| == |free| - Need(sp, Pages(sz0), Pages(sz)))
    && (r == 0 && 0 < n && TablesAt(sp, Pages(sz0), Pages(sz)) ==> sp'.nodes == sp.nodes)
    && Kept(m, m', sp, sp')
  }

  /**
   * What the process sees after growproc(n) for n > 0: copyin of any range of the new pages gives
   * zeros, copyout there succeeds, and the pages it had read as before.
   */
  lemma GrownMemory(m: Mem, free: seq<nat>, sp: Space, sz0: nat, n: int, m': Mem, free': seq<nat>, sp': Space, sz: nat, va: nat, len: nat)
    requires Resized(m, free, sp, sz0, n, 0, m', free', sp', sz) && 0 < n
    requires Pages(sz0) * 4096 <= va && va + len <= Pages(sz0 + n) * 4096
    ensures UserIo.In(m', sp'.leaf, va, len) == (seq(len, i => 0), 0)
    ensures forall src: seq<Byte> | |src| == len :: UserIo.Out(m', sp'.leaf, va, src).1 == 0
    ensures forall u: nat | Pages(sz0) <= u < Pages(sz0 + n) :: u in sp'.leaf && sp'.leaf[u].flags / 16 % 2 == 1 && sp'.leaf[u].flags / 4 % 2 == 1
  {
    hide Kept;
    hide Grown;
    hide Pages;
    hide Need;
    hide TablesAt;
    hide Without;
    hide Readable;
    hide UserIo.In;
    hide UserIo.Out;
    hide UserFlags;
    assert sz == sz0 + n && Grown(m', sp, sp', Pages(sz0), Pages(sz), UserFlags(PTE_W));
    hide Resized;
    UserIo.GrownReads(m', sp, sp', Pages(sz0), Pages(sz), PTE_W, va, len);
    GrownBits(m', sp, sp', Pages(sz0), Pages(sz));
  }

  lemma GrownBits(m: Mem, sp: Space, sp': Space, lo: nat, hi: nat)
    requires Grown(m, sp, sp', lo, hi, UserFlags(PTE_W))
    ensures forall u: nat | lo <= u < hi :: u in sp'.leaf && sp'.leaf[u].flags / 16 % 2 == 1 && sp'.leaf[u].flags / 4 % 2 == 1
  {
  }

  /** The body of growproc up to the assignment of p->sz. */
  method Resize(k: Kmem, root: nat, sz0: nat, n: int, ghost trampoline: nat, ghost p: Proc, ghost sp: Space)
    returns (sz: nat, ghost sp': Space, r: int)
    requires Owns(k, sp) && root == sp.RootPage() * 4096 && ProcLeaves(sp, sz0, trampoline, p.trapframe)
    requires Pages(sz0) + |k.free| <= USERTOP
    requires -0x8000_0000 <= n < 0x8000_0000
    modifies k
    ensures Owns(k, sp') && sp'.RootPage() == sp.RootPage() && Balanced(old(k.free), sp, k.free, sp')
    ensures ProcLeaves(sp', sz, trampoline, p.trapframe)
    ensures Same(old(k.mem), k.mem, ToSet(old(k.free)) + Owned(sp))
    ensures Resized(old(k.mem), old(k.free), sp, sz0, n, r, k.mem, k.free, sp', sz)
  {
    hide TablesAt;
    hide Need;
    hide Owns;
    hide ToSet;
    hide Owned;
    hide Frames;
    hide Without;
    hide Balanced;
    hide ProcLeaves;
    hide Pages;
    hide U64;
    hide Kept;
    hide Grown;
    OwnsNow(k, sp);
    KeptSame(k, k.mem, k.free, sp);
    BalancedRefl(k.free, sp);
    if n > 0 {
      sz, sp', r := GrowBy(k, root, sz0, n, trampoline, p.trapframe, sp);
    } else if n < 0 {
      sz, sp' := ShrinkBy(k, root, sz0, n, trampoline, p.trapframe, sp);
      r := 0;
    } else {
      sz, sp', r := sz0, sp, 0;
    }
  }

  lemma SameWider(m: Mem, m': Mem, touched: set<nat>, wider: set<nat>)
    requires Same(m, m', touched) && touched <= wider
    ensures Same(m, m', wider)
  {
  }

  lemma SameTrans(m0: Mem, m1: Mem, m2: Mem, touched: set<nat>, also: set<nat>)
    requires Same(m0, m1, touched) && Same(m1, m2, also) && also <= touched
    ensures Same(m0, m2, touched)
  {
  }

  lemma BalancedRefl(free: seq<nat>, sp: Space)
    ensures Balanced(free, sp, free, sp)
  {
  }

  lemma SzLeaves(sp: Space, sz: nat, trampoline: nat, trapframe: nat)
    requires ProcLeaves(sp, sz, trampoline, trapframe)
    ensures sz <= USYSCALL && Pages(sz) <= USERTOP && forall v: nat | v < Pages(sz) :: v in sp.leaf
  {
    PagesHold(sz);
  }

  lemma SameLeaves(sp: Space, sp': Space, sz: nat, trampoline: nat, trapframe: nat)
    requires ProcLeaves(sp, sz, trampoline, trapframe) && sp'.leaf == sp.leaf
    ensures ProcLeaves(sp', sz, trampoline, trapframe)
  {
  }

  lemma SzFrames(sp: Space, sz: nat, sz0: nat)
    requires sz0 <= USYSCALL
    ensures Frames(sp.leaf, Pages(sz), Pages(sz0)) <= Owned(sp)
  {
    PagesHold(sz0);
  }

  lemma SzFits(sp: Space, sz: nat, trampoline: nat, trapframe: nat, room: nat)
    requires ProcLeaves(sp, sz, trampoline, trapframe) && Pages(sz) + room <= USERTOP
    ensures forall v: nat | Pages(sz) <= v && v < Pages(sz) + room :: v < USERTOP && v !in sp.leaf
  {
  }

  /** `sz + n` as a uint64 for negative n: a shrink below zero wraps round to a huge size. */
  lemma SzShrinks(sz: nat, n: int)
    requires sz <= USYSCALL && -0x8000_0000 <= n < 0
    ensures 0 <= sz + n ==> U64(sz + n) == sz + n < sz
    ensures sz + n < 0 ==> U64(sz + n) > sz
  {
  }

  lemma KeptSame(k: Kmem, m: Mem, free: seq<nat>, sp: Space)
    requires Owns(k, sp) && m == k.mem && free == k.free
    ensures Kept(m, m, sp, sp)
  {
    forall v: nat | v in sp.leaf && v < USERTOP ensures sp.leaf[v].frame in m {
      FrameBeside(k, sp, v);
    }
  }

  lemma KeptGrown(k: Kmem, m: Mem, free: seq<nat>, sp: Space, m': Mem, sp': Space, lo: nat, hi: nat)
    requires OwnsAt(k, m, free, sp) && Kept(m, m, sp, sp)
    requires Same(m, m', sp.NodePages() + ToSet(free))
    requires Without(sp'.leaf, lo, hi) == sp.leaf || sp'.leaf == sp.leaf
    ensures Kept(m, m', sp, sp')
  {
    hide WF;
    forall v: nat | v in sp.leaf && v in sp'.leaf && v < USERTOP
      ensures sp'.leaf[v] == sp.leaf[v] && sp.leaf[v].frame in m' && m'[sp.leaf[v].frame] == m[sp.leaf[v].frame]
    {
      InToSet(free, sp.leaf[v].frame);
      assert sp.leaf[v].frame !in sp.NodePages() + ToSet(free);
    }
  }

  lemma KeptShrunk(k: Kmem, m: Mem, free: seq<nat>, sp: Space, m': Mem, sp': Space, lo: nat, hi: nat)
    requires OwnsAt(k, m, free, sp) && Kept(m, m, sp, sp) && hi <= USERTOP
    requires Same(m, m', sp.NodePages() + Frames(sp.leaf, lo, hi))
    requires sp'.leaf == Without(sp.leaf, lo, hi)
    ensures Kept(m, m', sp, sp')
  {
    hide WF;
    forall v: nat | v in sp.leaf && v in sp'.leaf && v < USERTOP
      ensures sp'.leaf[v] == sp.leaf[v] && sp.leaf[v].frame in m' && m'[sp.leaf[v].frame] == m[sp.leaf[v].frame]
    {
      assert sp.leaf[v].frame !in sp.NodePages() + Frames(sp.leaf, lo, hi);
    }
  }

  lemma GrownLeaves(m: Mem, sp: Space, sp': Space, sz0: nat, sz: nat, trampoline: nat, trapframe: nat)
    requires ProcLeaves(sp, sz0, trampoline, trapframe) && sz0 <= sz
    requires Grown(m, sp, sp', Pages(sz0), Pages(sz), UserFlags(PTE_W))
    requires Pages(sz0) < Pages(sz) ==> Pages(sz) <= USERTOP
    ensures ProcLeaves(sp', sz, trampoline, trapframe)
  {
    PagesMonotone(sz0, sz);
    PagesHold(sz0);
    PagesHold(sz);
    hide Pages;
    forall v: nat ensures v in sp'.leaf <==> v < Pages(sz) || v == TRAMPOLINE_VPN || v == TRAPFRAME_VPN {
      WithoutAt(sp'.leaf, Pages(sz0), Pages(sz), v);
    }
    WithoutAt(sp'.leaf, Pages(sz0), Pages(sz), TRAMPOLINE_VPN);
    WithoutAt(sp'.leaf, Pages(sz0), Pages(sz), TRAPFRAME_VPN);
  }

  lemma ShrunkLeaves(sp: Space, sp': Space, sz0: nat, sz: nat, trampoline: nat, trapframe: nat)
    requires ProcLeaves(sp, sz0, trampoline, trapframe) && sz <= sz0
    requires sp'.leaf == Without(sp.leaf, Pages(sz), Pages(sz0))
    ensures ProcLeaves(sp', sz, trampoline, trapframe)
  {
    PagesMonotone(sz, sz0);
    PagesHold(sz0);
    hide Pages;
    forall v: nat ensures v in sp'.leaf <==> v < Pages(sz) || v == TRAMPOLINE_VPN || v == TRAPFRAME_VPN {
      WithoutAt(sp.leaf, Pages(sz), Pages(sz0), v);
    }
  }

  lemma ResizedSlot(k: Kmem, m: Mem, free: seq<nat>, trampoline: nat, p: Proc, sp: Space, sz: nat, sp': Space)
    requires SlotAt(k, m, free, trampoline, p, sp) && p.pagetable != 0 && p.state != UNUSED
    requires Owns(k, sp') && sp'.RootPage() == sp.RootPage() && Balanced(free, sp, k.free, sp')
    requires ProcLeaves(sp', sz, trampoline, p.trapframe)
    ensures var p' := p.(sz := sz);
      && SlotAt(k, k.mem, k.free, trampoline, p', sp')
      && ToSet(k.free) + Holdings(p', sp') == ToSet(free) + Holdings(p, sp)
  {
    hide WF;
    hide Freeable;
    hide ProcLeaves;
    hide Kmem.Valid;
    hide Owned;
    OwnedPages(k, sp');
    NewHolder(k, free, sp, sp', p.trapframe);
    NewHolder(k, free, sp, sp', p.trapframesv);
  }

  /** A trapframe page stays outside the free list and the address space. */
  lemma NewHolder(k: Kmem, free: seq<nat>, sp: Space, sp': Space, pa: nat)
    requires Balanced(free, sp, k.free, sp') && pa / 4096 !in free && pa / 4096 !in Owned(sp)
    ensures pa / 4096 !in k.free && pa / 4096 !in Owned(sp')
  {
    hide Owned;
    InToSet(free, pa / 4096);
    InToSet(k.free, pa / 4096);
    assert pa / 4096 !in ToSet(k.free) + Owned(sp');
  }

  lemma NewSlot(k: Kmem, m: Mem, free: seq<nat>, trampoline: nat, p: Proc, sp: Space)
    requires k.Valid() && m == k.mem && free == k.free && SlotAt(k, m, free, trampoline, p, sp) && p.pagetable != 0
    requires sp.leaf == HighPages(trampoline, p.trapframe)
    ensures Owns(k, sp) && p.pagetable == sp.RootPage() * 4096 && Owned(sp) <= Holdings(p, sp)
    ensures forall v: nat | v < USERTOP :: v !in sp.leaf
    ensures p.trapframe != 0 && p.trapframe % 4096 == 0
  {
    hide WF;
  }

  /** The child's trapframe page: the 288 bytes of the parent's trapframe, a0 (word 14) cleared. */
  function ForkedTrapframe(from: Page, to: Page): Page {
    SetWord(from[..288] + to[288..], 14, 0)
  }

  lemma TrapframePage(k: Kmem, m: Mem, free: seq<nat>, trampoline: nat, p: Proc, sp: Space)
    requires k.Valid() && m == k.mem && free == k.free && SlotAt(k, m, free, trampoline, p, sp)
    requires p.pagetable != 0 || (p.state != UNUSED && p.state != USED)
    ensures p.trapframe != 0 && p.trapframe / 4096 in m && p.trapframe / 4096 !in free
    ensures p.trapframe / 4096 in Holdings(p, sp)
  {
    hide WF;
    ManagedInMem(k, p.trapframe / 4096);
  }

  lemma TrapframeFilled(k: Kmem, m: Mem, free: seq<nat>, trampoline: nat, p: Proc, sp: Space, f: nat)
    requires k.Valid() && free == k.free && SlotAt(k, m, free, trampoline, p, sp) && p.pagetable != 0
    requires f == p.trapframe / 4096 && Same(m, k.mem, {f})
    requires forall q: nat | k.Managed(q) :: q in m
    ensures SlotAt(k, k.mem, k.free, trampoline, p, sp)
  {
    hide WF;
    hide Freeable;
    hide Kmem.Valid;
    hide ProcLeaves;
    assert sp.NodePages() <= Owned(sp);
    forall q | q in sp.NodePages() ensures q in m && q in k.mem && k.mem[q] == m[q] {
      assert q != f;
    }
    HoldingsManaged(k, m, free, trampoline, p, sp);
    assert Owned(sp) <= Holdings(p, sp);
    OwnsFrame(k, m, free, sp);
  }

  /** The child of fork, `cp`, is a faithful copy of the parent `pp` as it was in memory `m`. */
  ghost predicate CopyOf(m: Mem, m': Mem, pp: Proc, parent: Space, cp: Proc, child: Space, trampoline: nat) {
    && Without(child.leaf, 0, Pages(pp.sz)) == HighPages(trampoline, cp.trapframe)
    && (forall v: nat | v < Pages(pp.sz) :: CopiedPage(m, m', parent, child, v))
    && pp.trapframe / 4096 in m && cp.trapframe / 4096 in m'
    && SameRegisters(m[pp.trapframe / 4096], m'[cp.trapframe / 4096])
  }

  /** Trapframes equal in every register but a0, which is 0 in the second. */
  ghost predicate SameRegisters(from: Page, to: Page) {
    Word(to, 14) == 0 && forall i: nat | i < 36 && i != 14 :: Word(to, i) == Word(from, i)
  }

  lemma ZeroWord()
    ensures Bytes(0, 8) == [0, 0, 0, 0, 0, 0, 0, 0]
  {
    assert Bytes(0, 4) == [0, 0, 0, 0];
  }

  lemma ForkedRegisters(from: Page, to: Page)
    ensures SameRegisters(from, ForkedTrapframe(from, to))
    ensures forall i | 0 <= i < 4096 ::
      ForkedTrapframe(from, to)[i] == if 112 <= i < 120 then 0 else if i < 288 then from[i] else to[i]
  {
    ZeroWord();
    var copy: Page := from[..288] + to[288..];
    WordsOfSetWord(copy, 14, 0);
    forall i: nat | i < 36
      ensures Word(copy, i) == Word(from, i)
    {
      assert copy[8 * i..8 * i + 8] == from[8 * i..8 * i + 8];
    }
  }

  /** After fork, copyin from the child reads what it read from the parent, and copyout may write the same pages. */
  lemma {:induction false} ForkedReads(m: Mem, m': Mem, parent: Space, child: Space, hi: nat, va: nat, len: nat)
    requires (forall v: nat | v < hi :: CopiedPage(m, m', parent, child, v)) && va + len <= hi * 4096
    ensures UserIo.In(m', child.leaf, va, len) == UserIo.In(m, parent.leaf, va, len)
    ensures forall v: nat | v < hi :: Writable(m', child.leaf, v) <==> Writable(m, parent.leaf, v)
    decreases len
  {
    forall v: nat | v < hi ensures Writable(m', child.leaf, v) <==> Writable(m, parent.leaf, v) {
      assert CopiedPage(m, m', parent, child, v);
    }
    if len > 0 {
      assert CopiedPage(m, m', parent, child, va / 4096);
      ForkedReads(m, m', parent, child, hi, va + 1, len - 1);
    }
  }

  /** What uvmcopy copied from the memory after allocproc is what the parent held before it. */
  lemma CopyHeld(k: Kmem, m0: Mem, free0: seq<nat>, m1: Mem, m2: Mem, sz: nat, parent: Space, child: Space)
    requires OwnsAt(k, m0, free0, parent) && Same(m0, m1, ToSet(free0)) && sz <= USYSCALL
    requires forall v: nat | v < Pages(sz) :: CopiedPage(m1, m2, parent, child, v)
    ensures forall v: nat | v < Pages(sz) :: CopiedPage(m0, m2, parent, child, v)
  {
    hide WF;
    PagesHold(sz);
    hide Pages;
    forall v: nat | v < Pages(sz) ensures CopiedPage(m0, m2, parent, child, v) {
      assert CopiedPage(m1, m2, parent, child, v);
      InToSet(free0, parent.leaf[v].frame);
      assert parent.leaf[v].frame !in ToSet(free0);
    }
  }

  /** Filling in the trapframe of the child leaves its copied pages alone. */
  lemma CopyAcross(m0: Mem, m2: Mem, m3: Mem, parent: Space, child: Space, tf: nat, n: nat)
    requires Same(m2, m3, {tf}) && tf !in Owned(child) && n <= USERTOP
    requires forall v: nat | v < n :: CopiedPage(m0, m2, parent, child, v)
    ensures forall v: nat | v < n :: CopiedPage(m0, m3, parent, child, v)
  {
    forall v: nat | v < n ensures CopiedPage(m0, m3, parent, child, v) {
      assert CopiedPage(m0, m2, parent, child, v);
      FrameOwned(child, v);
    }
  }

  lemma SameHoldings(k: Kmem, m: Mem, free: seq<nat>, trampoline: nat, p: Proc, sp: Space, st: ProcState)
    requires SlotAt(k, m, free, trampoline, p, sp) && p.state != UNUSED && p.state != USED && st != UNUSED
    ensures SlotAt(k, m, free, trampoline, p.(state := st), sp) && Holdings(p.(state := st), sp) == Holdings(p, sp)
  {
  }

  lemma StartedSlot(k: Kmem, trampoline: nat, p: Proc, sp: Space, parent: nat)
    requires SlotAt(k, k.mem, k.free, trampoline, p, sp) && p.state == USED && p.pagetable != 0
    ensures var p' := p.(state := RUNNABLE, parent := Some(parent));
      SlotAt(k, k.mem, k.free, trampoline, p', sp) && Holdings(p', sp) == Holdings(p, sp)
  {
  }

  lemma ParentBefore(k: Kmem, m: Mem, free: seq<nat>, trampoline: nat, p: Proc, sp: Space)
    requires k.Valid() && m == k.mem && free == k.free && SlotAt(k, m, free, trampoline, p, sp)
    requires p.state != UNUSED && p.state != USED
    ensures OwnsAt(k, m, free, sp) && p.trapframe / 4096 in m && p.trapframe / 4096 !in ToSet(free)
    ensures p.sz <= USYSCALL
  {
    TrapframePage(k, m, free, trampoline, p, sp);
    InToSet(free, p.trapframe / 4096);
  }

  /** The copy made by fork, from its start (`m0`) over uvmcopy (`m2`) to the trapframe (`m3`). */
  lemma CopyMade(k: Kmem, trampoline: nat, m0: Mem, free0: seq<nat>, m2: Mem, m3: Mem, free3: seq<nat>, pp: Proc, parent: Space, cp: Proc, child: Space)
    requires pp.sz <= USYSCALL
    requires pp.trapframe / 4096 in m0 && pp.trapframe / 4096 !in ToSet(free0)
    requires SlotAt(k, m3, free3, trampoline, cp, child) && cp.pagetable != 0
    requires Without(child.leaf, 0, Pages(pp.sz)) == HighPages(trampoline, cp.trapframe)
    requires forall v: nat | v < Pages(pp.sz) :: CopiedPage(m0, m2, parent, child, v)
    requires pp.trapframe / 4096 in m2 && cp.trapframe / 4096 in m2 && m2[pp.trapframe / 4096] == m0[pp.trapframe / 4096]
    requires m3 == m2[cp.trapframe / 4096 := ForkedTrapframe(m2[pp.trapframe / 4096], m2[cp.trapframe / 4096])]
    ensures CopyOf(m0, m3, pp, parent, cp, child, trampoline)
  {
    hide OwnsAt;
    hide ForkedTrapframe;
    hide SameRegisters;
    hide CopiedPage;
    hide HighPages;
    hide Owned;
    hide ProcLeaves;
    PagesHold(pp.sz);
    CopyAcross(m0, m2, m3, parent, child, cp.trapframe / 4096, Pages(pp.sz));
    ForkedRegisters(m2[pp.trapframe / 4096], m2[cp.trapframe / 4096]);
  }

  lemma NodesHeld(p: Proc, sp: Space)
    requires p.pagetable != 0
    ensures sp.NodePages() <= Holdings(p, sp)
  {
  }

  lemma Strangers(pool: set<nat>, free: seq<nat>, procs: seq<Proc>, spaces: seq<Space>, p: nat, c: nat, trampoline: nat)
    requires Partition(pool, free, procs, spaces) && p < |procs| && c < |procs| && p != c
    requires procs[p].pagetable != 0 && procs[c].pagetable != 0
    ensures Owned(spaces[p]) !! Owned(spaces[c])
    ensures Holdings(procs[p], spaces[p]) !! Holdings(procs[c], spaces[c]) + ToSet(free)
  {
    hide Owned;
    assert Holdings(procs[p], spaces[p]) !! Holdings(procs[c], spaces[c]);
  }

  /** The leaves of the child after uvmcopy. */
  lemma CopiedLeaves(m: Mem, m': Mem, parent: Space, child: Space, child': Space, r: int, sz: nat, trampoline: nat, trapframe: nat, ctrapframe: nat)
    requires ProcLeaves(parent, sz, trampoline, trapframe) && child.leaf == HighPages(trampoline, ctrapframe)
    requires r == 0 ==> Copied(m, m', parent, child, child', Pages(sz))
    requires r == -1 ==> child'.leaf == child.leaf
    requires r == 0 || r == -1
    ensures ProcLeaves(child', if r == 0 then sz else 0, trampoline, ctrapframe)
  {
    PagesHold(sz);
    if r == 0 {
      hide Pages;
      forall v: nat ensures v in child'.leaf <==> v < Pages(sz) || v == TRAMPOLINE_VPN || v == TRAPFRAME_VPN {
        WithoutAt(child'.leaf, 0, Pages(sz), v);
        if v < Pages(sz) {
          assert CopiedPage(m, m', parent, child', v);
        }
      }
      WithoutAt(child'.leaf, 0, Pages(sz), TRAMPOLINE_VPN);
      WithoutAt(child'.leaf, 0, Pages(sz), TRAPFRAME_VPN);
    }
  }

  // ----- isolation -----

  /** The frames that user code of a process can access: its own, and neither free nor tree nodes. */
  lemma UserFramesHeld(k: Kmem, m: Mem, free: seq<nat>, trampoline: nat, p: Proc, sp: Space)
    requires SlotAt(k, m, free, trampoline, p, sp) && p.pagetable != 0
    ensures UserIo.UserPages(k, free, sp) && UserIo.Injective(sp.leaf)
    ensures UserIo.UserFrames(sp.leaf) <= Holdings(p, sp)
    ensures UserIo.UserFrames(sp.leaf) !! PtrPage(p.trapframe) + PtrPage(p.trapframesv)
    ensures UserIo.UserFrames(sp.leaf) !! sp.NodePages() + ToSet(free)
  {
    hide WF;
    hide ToSet;
    hide Owned;
    PagesHold(p.sz);
    HighPerms();
    UserIo.OwnUserPages(k, m, free, sp);
  }

  /** A slot stands when memory changes outside its tree nodes. */
  lemma SlotMemory(k: Kmem, m: Mem, m': Mem, free: seq<nat>, trampoline: nat, p: Proc, sp: Space, touched: set<nat>)
    requires SlotAt(k, m, free, trampoline, p, sp) && Same(m, m', touched)
    requires p.pagetable != 0 ==> touched !! sp.NodePages()
    ensures SlotAt(k, m', free, trampoline, p, sp)
  {
    hide WF;
    hide Freeable;
    hide ProcLeaves;
    hide Owned;
    if p.pagetable != 0 {
      UserIo.NodesInMem(k, m, sp);
      assert forall q | q in sp.NodePages() :: q in m' && m'[q] == m[q];
      WFFrame(m, m', sp);
    }
  }

  /** What copyout to slot `i` touches: no tree node of any process, no free page, no trapframe, nothing of another slot. */
  lemma CopyOutTouches(k: Kmem, m: Mem, free: seq<nat>, trampoline: nat, pool: set<nat>, procs: seq<Proc>, spaces: seq<Space>, i: nat, j: nat)
    requires TableAt(k, m, free, trampoline, procs, spaces) && Partition(pool, free, procs, spaces)
    requires i < |procs| && j < |procs| && procs[i].pagetable != 0
    ensures UserIo.UserFrames(spaces[i].leaf) !! ToSet(free)
    ensures UserIo.UserFrames(spaces[i].leaf) !! PtrPage(procs[i].trapframe) + PtrPage(procs[i].trapframesv)
    ensures procs[j].pagetable != 0 ==> UserIo.UserFrames(spaces[i].leaf) !! spaces[j].NodePages()
    ensures i != j ==> UserIo.UserFrames(spaces[i].leaf) !! Holdings(procs[j], spaces[j])
  {
    hide SlotAt;
    hide Holdings;
    hide ToSet;
    hide Space.NodePages;
    UserFramesHeld(k, m, free, trampoline, procs[i], spaces[i]);
    if i != j {
      assert Holdings(procs[i], spaces[i]) !! Holdings(procs[j], spaces[j]);
      if procs[j].pagetable != 0 {
        NodesHeld(procs[j], spaces[j]);
      }
    }
  }

  /**
   * copyout to one process of the table keeps the table and the ownership partition, and on success
   * copyin of the same range returns the bytes.
   */
  lemma CopyOutKeeps(k: Kmem, m: Mem, free: seq<nat>, trampoline: nat, pool: set<nat>, procs: seq<Proc>, spaces: seq<Space>, i: nat, va: nat, src: seq<Byte>)
    requires TableAt(k, m, free, trampoline, procs, spaces) && Partition(pool, free, procs, spaces)
    requires i < |procs| && procs[i].pagetable != 0
    ensures var (m', r) := UserIo.Out(m, spaces[i].leaf, va, src);
      && Same(m, m', UserIo.UserFrames(spaces[i].leaf))
      && TableAt(k, m', free, trampoline, procs, spaces)
      && (r == 0 ==> UserIo.In(m', spaces[i].leaf, va, |src|) == (src, 0))
  {
    hide SlotAt;
    hide Holdings;
    hide ToSet;
    hide Space.NodePages;
    hide Partition;
    hide Same;
    TableSize(pool, free, procs, spaces);
    UserFramesHeld(k, m, free, trampoline, procs[i], spaces[i]);
    UserIo.OutTouches(m, spaces[i].leaf, va, src);
    var m' := UserIo.Out(m, spaces[i].leaf, va, src).0;
    forall j | 0 <= j < |procs| ensures SlotAt(k, m', free, trampoline, procs[j], spaces[j]) {
      CopyOutTouches(k, m, free, trampoline, pool, procs, spaces, i, j);
      SlotMemory(k, m, m', free, trampoline, procs[j], spaces[j], UserIo.UserFrames(spaces[i].leaf));
    }
    if UserIo.Out(m, spaces[i].leaf, va, src).1 == 0 {
      UserIo.OutThenIn(m, spaces[i].leaf, va, src);
    }
  }

  /** Two processes are isolated: whatever copyout stores for one, copyin reads the same for the other. */
  lemma ProcessesIsolated(k: Kmem, m: Mem, free: seq<nat>, trampoline: nat, pool: set<nat>, procs: seq<Proc>, spaces: seq<Space>, i: nat, j: nat, va: nat, src: seq<Byte>, a: nat, len: nat)
    requires TableAt(k, m, free, trampoline, procs, spaces) && Partition(pool, free, procs, spaces)
    requires i < |procs| && j < |procs| && i != j && procs[i].pagetable != 0 && procs[j].pagetable != 0
    ensures var m' := UserIo.Out(m, spaces[i].leaf, va, src).0;
      && UserIo.In(m', spaces[j].leaf, a, len) == UserIo.In(m, spaces[j].leaf, a, len)
      && UserIo.InStr(m', spaces[j].leaf, a, len) == UserIo.InStr(m, spaces[j].leaf, a, len)
  {
    hide SlotAt;
    hide Holdings;
    UserFramesHeld(k, m, free, trampoline, procs[i], spaces[i]);
    UserFramesHeld(k, m, free, trampoline, procs[j], spaces[j]);
    assert Holdings(procs[i], spaces[i]) !! Holdings(procs[j], spaces[j]);
    UserIo.Isolation(m, spaces[i].leaf, spaces[j].leaf, va, src, a, len);
  }

  // ----- the pool bounds every address space -----

  lemma {:induction false} FramesCount(leaf: map<nat, Leaf>, n: nat)
    requires forall v: nat | v < n :: v in leaf
    requires forall u, v | u in leaf && v in leaf && u < v < n :: leaf[u].frame != leaf[v].frame
    ensures |Frames(leaf, 0, n)| == n
  {
    if n == 0 {
      EmptyRange(leaf, 0);
    } else {
      FramesCount(leaf, n - 1);
      RangeStep(leaf, 0, n - 1);
      assert leaf[n - 1].frame !in Frames(leaf, 0, n - 1);
    }
  }

  lemma {:induction false} FreeCount(free: seq<nat>)
    requires forall i, j | 0 <= i < j < |free| :: free[i] != free[j]
    ensures |ToSet(free)| == |free|
  {
    if free != [] {
      FreeCount(free[1..]);
      PushSet(free[1..], free[0]);
      assert free == [free[0]] + free[1..];
      assert free[0] !in ToSet(free[1..]);
    }
  }

  lemma SubsetCount(a: set<nat>, b: set<nat>, pool: set<nat>)
    requires a !! b && a <= pool && b <= pool
    ensures |a| + |b| <= |pool|
  {
    assert |a + b| == |a| + |b|;
    SubsetSize(a + b, pool);
  }

  lemma SubsetSize(a: set<nat>, b: set<nat>)
    requires a <= b
    ensures |a| <= |b|
  {
    assert b == a + (b - a);
    assert |a + (b - a)| == |a| + |b - a|;
  }

  /** User pages and free pages together fit below the fixed high pages. */
  lemma PoolBound(k: Kmem, pool: set<nat>, free: seq<nat>, procs: seq<Proc>, spaces: seq<Space>, i: nat)
    requires k.Valid() && free == k.free && Partition(pool, free, procs, spaces) && i < |procs|
    requires |pool| <= USERTOP && procs[i].pagetable != 0 && Owns(k, spaces[i]) && procs[i].sz <= USYSCALL
    requires forall v: nat | v < Pages(procs[i].sz) :: v in spaces[i].leaf
    ensures Pages(procs[i].sz) + |free| <= USERTOP
  {
    hide WF;
    var sp, n := spaces[i], Pages(procs[i].sz);
    FramesCount(sp.leaf, n);
    FreeCount(free);
    var f := Frames(sp.leaf, 0, n);
    assert f <= Frames(sp.leaf, 0, USERTOP);
    assert f <= Holdings(procs[i], sp);
    assert Holdings(procs[i], spaces[i]) <= AllHoldings(procs, spaces);
    SubsetCount(f, ToSet(free), pool);
  }

  lemma PtrBound(k: Kmem, pa: nat)
    requires k.Valid() && pa != 0 && PtrOk(k, k.free, pa)
    ensures pa % 4096 == 0 && pa / 4096 < MAXPPN
  {
  }

  /** A slot that gets its page table, or stays without one. */
  lemma PagetableAdded(k: Kmem, m: Mem, free: seq<nat>, trampoline: nat, p: Proc, sp0: Space, root: nat, sp: Space)
    requires k.Valid() && SlotAt(k, m, free, trampoline, p, sp0) && p.state == USED && p.pagetable == 0
    requires p.trapframe != 0 && p.trapframesv != 0
    requires root == 0 ==> ToSet(k.free) == ToSet(free)
    requires root != 0 ==>
      && Owns(k, sp) && root == sp.RootPage() * 4096 && sp.leaf == HighPages(trampoline, p.trapframe)
      && ToSet(k.free) + Owned(sp) == ToSet(free) && ToSet(k.free) <= ToSet(free)
    ensures var p' := p.(pagetable := root);
      && SlotAt(k, k.mem, k.free, trampoline, p', sp)
      && ToSet(k.free) + Holdings(p', sp) == ToSet(free) + Holdings(p, sp0)
  {
    hide WF;
    hide Freeable;
    hide Owned;
    hide Kmem.Valid;
    InToSet(k.free, p.trapframe / 4096);
    InToSet(k.free, p.trapframesv / 4096);
    InToSet(free, p.trapframe / 4096);
    InToSet(free, p.trapframesv / 4096);
  }

  function WithPtr(p: Proc, save: bool, pa: nat): Proc {
    if save then p.(trapframesv := pa) else p.(trapframe := pa)
  }

  lemma PtrAdded(k: Kmem, m: Mem, free: seq<nat>, trampoline: nat, p: Proc, sp: Space, save: bool, pa: nat)
    requires SlotAt(k, m, free, trampoline, p, sp) && p.state == USED && p.pagetable == 0
    requires if save then p.trapframesv == 0 else p.trapframe == 0
    requires pa != 0 && pa % 4096 == 0 && k.Managed(pa / 4096) && pa / 4096 in free
    requires k.free == free[1..] && free[0] == pa / 4096 && free[0] !in free[1..]
    ensures var p' := WithPtr(p, save, pa);
      && SlotAt(k, k.mem, k.free, trampoline, p', sp)
      && Holdings(p', sp) == Holdings(p, sp) + {pa / 4096}
  {
  }

  lemma EmptyTable(k: Kmem, trampoline: nat, procs: seq<Proc>, spaces: seq<Space>)
    requires |procs| == |spaces| && forall i | 0 <= i < |procs| :: procs[i] == NoProc
    ensures TableAt(k, k.mem, k.free, trampoline, procs, spaces)
    ensures Partition(ToSet(k.free), k.free, procs, spaces)
  {
    hide ToSet;
    forall i | 0 <= i < |procs| ensures Holdings(procs[i], spaces[i]) == {} {
    }
  }

  lemma TableSize(pool: set<nat>, free: seq<nat>, procs: seq<Proc>, spaces: seq<Space>)
    requires Partition(pool, free, procs, spaces)
    ensures |procs| == |spaces|
  {
  }

  /** The three frees of freeproc. */
  method FreeHoldings(k: Kmem, ghost trampoline: nat, p: Proc, ghost sp: Space)
    requires k.Valid() && SlotAt(k, k.mem, k.free, trampoline, p, sp)
    modifies k
    ensures k.Valid()
    ensures ToSet(k.free) == ToSet(old(k.free)) + Holdings(p, sp)
    ensures Same(old(k.mem), k.mem, Holdings(p, sp))
  {
    hide ToSet;
    hide Owns;
    hide Kmem.Valid;
    hide ProcLeaves;
    hide SlotAt;
    hide Owned;
    ghost var has := p.pagetable != 0;
    SlotParts(k, k.mem, k.free, trampoline, p, sp);
    if p.trapframe != 0 {
      KfreePtr(k, p.trapframe, has, sp);
    }
    assert ToSet(k.free) == ToSet(old(k.free)) + PtrPage(p.trapframe);
    if p.trapframesv != 0 {
      SlotPage2(k.free, old(k.free), p);
      KfreePtr(k, p.trapframesv, has, sp);
    }
    assert ToSet(k.free) == ToSet(old(k.free)) + PtrPage(p.trapframe) + PtrPage(p.trapframesv);
    if p.pagetable != 0 {
      ProcFreePagetable(k, p.pagetable, p.sz, sp, trampoline, p.trapframe);
    }
  }

  lemma SlotTree(k: Kmem, trampoline: nat, p: Proc, sp: Space)
    requires k.Valid() && SlotAt(k, k.mem, k.free, trampoline, p, sp) && p.pagetable != 0
    ensures Tree(k, sp) && p.pagetable == sp.RootPage() * 4096
  {
  }

  lemma SlotParts(k: Kmem, m: Mem, free: seq<nat>, trampoline: nat, p: Proc, sp: Space)
    requires k.Valid() && m == k.mem && free == k.free && SlotAt(k, m, free, trampoline, p, sp)
    ensures PtrOk(k, free, p.trapframe) && PtrOk(k, free, p.trapframesv)
    ensures PtrPage(p.trapframe) !! PtrPage(p.trapframesv)
    ensures p.pagetable != 0 ==>
      && Owns(k, sp) && p.pagetable == sp.RootPage() * 4096
      && ProcLeaves(sp, p.sz, trampoline, p.trapframe)
      && p.trapframe != 0 && p.trapframesv != 0
      && p.trapframe / 4096 !in Owned(sp) && p.trapframesv / 4096 !in Owned(sp)
  {
  }

  lemma SlotPage2(free': seq<nat>, free: seq<nat>, p: Proc)
    requires ToSet(free') == ToSet(free) + PtrPage(p.trapframe)
    requires PtrPage(p.trapframe) !! PtrPage(p.trapframesv)
    requires p.trapframesv != 0 && p.trapframesv / 4096 !in free
    ensures p.trapframesv / 4096 !in free'
  {
    InToSet(free', p.trapframesv / 4096);
    InToSet(free, p.trapframesv / 4096);
  }

  lemma ClearedSlot(k: Kmem, trampoline: nat, p: Proc, sp: Space)
    ensures SlotAt(k, k.mem, k.free, trampoline, Cleared(p), sp) && Holdings(Cleared(p), sp) == {}
  {
  }
}
