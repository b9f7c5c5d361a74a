/**
 * The page table of a process (proc_pagetable and proc_freepagetable in lab traps/kernel/proc.c):
 * user pages from 0 up, and the trampoline and trapframe pages at the top.
 */
module ProcPages {
  import opened Riscv
  import opened PhysMem
  import opened Kalloc
  import opened PageTable
  import opened Vm
  import opened Uvm
  import opened Teardown

  /** The two fixed high mappings. */
  function HighPages(trampoline: nat, trapframe: nat): map<nat, Leaf> {
    map[TRAMPOLINE_VPN := Leaf(trampoline / 4096, PTE_V + PTE_R + PTE_X),
        TRAPFRAME_VPN := Leaf(trapframe / 4096, PTE_V + PTE_R + PTE_W)]
  }

  /** By number: the trampoline is executable and the trapframe writable, and user code can access neither. */
  lemma HighPagesAre(trampoline: nat, trapframe: nat)
    ensures HighPages(trampoline, trapframe).Keys == {0x3ff_ffff, 0x3ff_fffe}
    ensures HighPages(trampoline, trapframe)[0x3ff_ffff] == Leaf(trampoline / 4096, 11)
    ensures HighPages(trampoline, trapframe)[0x3ff_fffe] == Leaf(trapframe / 4096, 7)
  {
  }

  lemma HighPerms()
    ensures LeafPerm(PTE_R + PTE_X) && SetV(PTE_R + PTE_X) == PTE_V + PTE_R + PTE_X
    ensures LeafPerm(PTE_R + PTE_W) && SetV(PTE_R + PTE_W) == PTE_V + PTE_R + PTE_W
    ensures !U(PTE_V + PTE_R + PTE_X) && !U(PTE_V + PTE_R + PTE_W)
  {
  }

  /** A zeroed page is a page table that maps nothing. */
  lemma EmptyTree(m: Mem, page: nat)
    requires page in m && m[page] == Fill(0) && page < MAXPPN
    ensures WF(m, Space(map[Root := page], map[]))
  {
    hide Fill;
    ZeroPageWords();
    var sp := Space(map[Root := page], map[]);
    assert Holds(m, sp, Root);
  }

  /** uvmcreate: an empty user page table, 0 when out of memory. */
  method UvmCreate(k: Kmem) returns (root: nat, ghost sp: Space)
    requires k.Valid()
    modifies k
    ensures k.Valid()
    ensures root == 0 <==> old(k.free) == []
    ensures root == 0 ==> k.free == old(k.free) && k.mem == old(k.mem)
    ensures root != 0 ==> |k.free| + 1 == |old(k.free)| && Ids(sp) == {Root}
    ensures root != 0 ==>
      && Owns(k, sp) && root == sp.RootPage() * 4096 && sp.leaf == map[]
      && ToSet(k.free) + Owned(sp) == ToSet(old(k.free)) && ToSet(k.free) <= ToSet(old(k.free))
      && Same(old(k.mem), k.mem, ToSet(old(k.free)))
  {
    hide WF;
    hide Fill;
    hide Chain;
    sp := Space(map[], map[]);
    root := k.Kalloc();
    if root == 0 {
      return;
    }
    ghost var page := root / 4096;
    assert old(k.free) == [page] + k.free;
    PushSet(k.free, page);
    assert page !in k.free by {
      ChainHead(old(k.mem), old(k.freelist), old(k.free));
    }
    assert k.Managed(page) by { assert page in old(k.free); }
    ManagedInMem(k, page);
    k.Memset(root, 0);
    sp := Space(map[Root := page], map[]);
    EmptyTree(k.mem, page);
    assert sp.nodes[Root] == page && page in sp.NodePages();
    assert forall p | p in sp.NodePages() :: p == page;
    assert Frames(sp.leaf, 0, USERTOP) == {};
    assert Ids(sp) == {Root};
  }

  /** Mappings at or above USERTOP add nothing to what the space owns. */
  lemma HighLeaf(k: Kmem, free: seq<nat>, sp: Space, v: nat, l: Leaf)
    requires Freeable(k, free, sp, 0, USERTOP) && v >= USERTOP
    ensures var sp' := sp.(leaf := sp.leaf[v := l]);
      Freeable(k, free, sp', 0, USERTOP) && Owned(sp') == Owned(sp)
  {
    var sp' := sp.(leaf := sp.leaf[v := l]);
    forall f ensures f in Frames(sp'.leaf, 0, USERTOP) <==> f in Frames(sp.leaf, 0, USERTOP) {
      if f in Frames(sp.leaf, 0, USERTOP) {
        var u :| u in sp.leaf && u < USERTOP && sp.leaf[u].frame == f;
        assert sp'.leaf[u] == sp.leaf[u];
      }
    }
  }

  /** mappages of one fixed page, whose frame belongs to somebody else. */
  method MapHigh(k: Kmem, root: nat, va: nat, pa: nat, perm: nat, ghost sp: Space) returns (r: int, ghost sp': Space)
    requires Owns(k, sp) && root == sp.RootPage() * 4096
    requires va % 4096 == 0 && USERTOP <= va / 4096 && va < MAXVA && va / 4096 !in sp.leaf
    requires pa % 4096 == 0 && pa / 4096 < MAXPPN && LeafPerm(perm)
    modifies k
    ensures Owns(k, sp') && sp'.RootPage() == sp.RootPage() && sp.NodePages() <= sp'.NodePages()
    ensures r == 0 || r == -1
    ensures sp'.leaf == if r == 0 then sp.leaf[va / 4096 := Leaf(pa / 4096, SetV(perm))] else sp.leaf
    ensures Balanced(old(k.free), sp, k.free, sp') && ToSet(k.free) <= ToSet(old(k.free))
    ensures Same(old(k.mem), k.mem, sp.NodePages() + ToSet(old(k.free)))
    ensures r == 0 <==> Missing(sp, va / 4096, va / 4096 + 1) <= |old(k.free)|
    ensures r == 0 ==> Ids(sp') == Ids(sp) + TableIds(va / 4096, va / 4096 + 1)
    ensures |k.free| + |Ids(sp')| == |old(k.free)| + |Ids(sp)|
    ensures r == 0 ==> NodeId(0, va / 4096 / 512) in sp'.nodes
  {
    hide Tree;
    hide LeafPerm;
    hide SetV;
    hide Freeable;
    hide Frames;
    hide Ids;
    hide TableIds;
    hide Missing;
    hide Conserved;
    ghost var v, l := va / 4096, Leaf(pa / 4096, SetV(perm));
    ghost var done;
    assert (va + 4096) / 4096 == v + 1;
    r, sp', done := MapPages(k, root, va, 4096, pa, perm, sp);
    ConservedCount(old(k.free), sp, k.free, sp');
    ConservedNodes(old(k.free), sp, k.free, sp', sp.(nodes := sp'.nodes));
    assert MapRange(sp.leaf, v, l.frame, 0, l.flags) == sp.leaf;
    assert MapRange(sp.leaf, v, l.frame, 1, l.flags) == sp.leaf[v := l];
    TreeGrown(k, old(k.free), sp, k.free, sp.(nodes := sp'.nodes));
    FreeShrinks(k, old(k.free), sp, sp');
    if r == 0 {
      HighLeaf(k, k.free, sp.(nodes := sp'.nodes), v, l);
      LeafNode(k, sp', v);
    }
  }

  /** uvmunmap of one fixed page, keeping its frame. */
  method UnmapHigh(k: Kmem, root: nat, va: nat, ghost sp: Space) returns (ghost sp': Space)
    requires Owns(k, sp) && root == sp.RootPage() * 4096
    requires va % 4096 == 0 && USERTOP <= va / 4096 && va < MAXVA && va / 4096 in sp.leaf
    modifies k
    ensures Owns(k, sp') && sp' == sp.(leaf := sp.leaf - {va / 4096}) && Owned(sp') == Owned(sp)
    ensures k.free == old(k.free) && Same(old(k.mem), k.mem, sp.NodePages())
  {
    hide Tree;
    hide Freeable;
    hide Frames;
    ghost var v := va / 4096;
    assert va + 4096 <= MAXVA;
    sp' := UvmUnmap(k, root, va, 1, false, sp);
    assert sp'.leaf == sp.leaf - {v};
    assert sp.leaf == sp'.leaf[v := sp.leaf[v]];
    HighGone(k, k.free, sp', sp, v);
  }

  lemma HighGone(k: Kmem, free: seq<nat>, sp': Space, sp: Space, v: nat)
    requires Freeable(k, free, sp, 0, USERTOP) && v >= USERTOP && v in sp.leaf
    requires sp'.nodes == sp.nodes && sp'.leaf == sp.leaf - {v}
    ensures Freeable(k, free, sp', 0, USERTOP) && Owned(sp') == Owned(sp)
  {
    forall f ensures f in Frames(sp'.leaf, 0, USERTOP) <==> f in Frames(sp.leaf, 0, USERTOP) {
      if f in Frames(sp.leaf, 0, USERTOP) {
        var u :| u in sp.leaf && u < USERTOP && sp.leaf[u].frame == f;
        assert sp'.leaf[u] == sp.leaf[u];
      }
    }
  }

  /** The nodes that serve the fixed high pages: the root and one table at each lower level. */
  ghost function FixedIds(): set<NodeId> {
    {Root} + PathIds(TRAMPOLINE_VPN)
  }

  lemma FixedPaths(sp: Space)
    requires Ids(sp) == {Root}
    ensures Missing(sp, TRAMPOLINE_VPN, TRAMPOLINE_VPN + 1) == 2
    ensures Ids(sp) + TableIds(TRAMPOLINE_VPN, TRAMPOLINE_VPN + 1) == FixedIds() && |FixedIds()| == 3
  {
    TableIdsStep(TRAMPOLINE_VPN, TRAMPOLINE_VPN);
    var p := PathIds(TRAMPOLINE_VPN);
    assert p - Ids(sp) == p && |p| == 2;
    UnionSize({Root}, p);
    assert p - {Root} == p;
  }

  /** The fixed pages share their tables. */
  lemma FixedShared(sp: Space, v: nat)
    requires Ids(sp) == FixedIds() && (v == TRAPFRAME_VPN || v == USYSCALL_VPN)
    ensures Missing(sp, v, v + 1) == 0 && Ids(sp) + TableIds(v, v + 1) == Ids(sp)
  {
    TableIdsStep(v, v);
    assert TableIds(v, v + 1) - Ids(sp) == {};
  }

  /**
   * proc_pagetable: a page table holding just the trampoline and the trapframe page, or, when there
   * are fewer than three free pages, 0 with every page back on the free list.
   */
  method ProcPagetable(k: Kmem, trampoline: nat, trapframe: nat) returns (root: nat, ghost sp: Space)
    requires k.Valid()
    requires trampoline % 4096 == 0 && trampoline / 4096 < MAXPPN
    requires trapframe % 4096 == 0 && trapframe / 4096 < MAXPPN
    modifies k
    ensures k.Valid()
    ensures root == 0 <==> |old(k.free)| < 3
    ensures root == 0 ==> ToSet(k.free) == ToSet(old(k.free))
    ensures root != 0 ==> |k.free| + 3 == |old(k.free)| && Ids(sp) == FixedIds()
    ensures root != 0 ==>
      && Owns(k, sp) && root == sp.RootPage() * 4096 && sp.leaf == HighPages(trampoline, trapframe)
      && ToSet(k.free) + Owned(sp) == ToSet(old(k.free)) && ToSet(k.free) <= ToSet(old(k.free))
    ensures Same(old(k.mem), k.mem, ToSet(old(k.free)))
  {
    hide Tree;
    hide LeafPerm;
    hide SetV;
    hide Freeable;
    hide Frames;
    hide ToSet;
    hide Ids;
    hide TableIds;
    hide Missing;
    hide FixedIds;
    hide Owned;
    hide Space.NodePages;
    HighPerms();
    assert TRAMPOLINE / 4096 == TRAMPOLINE_VPN && TRAPFRAME / 4096 == TRAPFRAME_VPN;
    root, sp := UvmCreate(k);
    if root == 0 {
      return;
    }
    NodesOwned(sp);
    FixedPaths(sp);
    var r;
    r, sp := MapHigh(k, root, TRAMPOLINE, trampoline, PTE_R + PTE_X, sp);
    NodesOwned(sp);
    if r < 0 {
      UvmFree(k, root, 0, sp);
      return 0, sp;
    }
    FixedShared(sp, TRAPFRAME_VPN);
    r, sp := MapHigh(k, root, TRAPFRAME, trapframe, PTE_R + PTE_W, sp);
    if r < 0 {
      assert false; // the two pages share their level-0 table, so this mapping needs no allocation
    }
    OwnsValid(k, sp);
  }

  lemma NodesOwned(sp: Space)
    ensures sp.NodePages() <= Owned(sp)
  {
  }

  /** The three fixed mappings of lab page tables: the read-only page of getpid lies below the others. */
  function HighPages3(trampoline: nat, trapframe: nat, usysro: nat): map<nat, Leaf> {
    HighPages(trampoline, trapframe)[USYSCALL_VPN := Leaf(usysro / 4096, PTE_V + PTE_R + PTE_U)]
  }

  /** By number: user code can read the third page, and cannot write it. */
  lemma HighPages3Are(trampoline: nat, trapframe: nat, usysro: nat)
    ensures HighPages3(trampoline, trapframe, usysro).Keys == {0x3ff_ffff, 0x3ff_fffe, 0x3ff_fffd}
    ensures HighPages3(trampoline, trapframe, usysro)[0x3ff_ffff] == Leaf(trampoline / 4096, 11)
    ensures HighPages3(trampoline, trapframe, usysro)[0x3ff_fffe] == Leaf(trapframe / 4096, 7)
    ensures HighPages3(trampoline, trapframe, usysro)[0x3ff_fffd] == Leaf(usysro / 4096, 19)
    ensures 19 / 16 % 2 == 1 && 19 / 4 % 2 == 0 && 19 / 2 % 2 == 1
  {
  }

  lemma UserPerm()
    ensures LeafPerm(PTE_R + PTE_U) && SetV(PTE_R + PTE_U) == PTE_V + PTE_R + PTE_U
  {
  }

  /**
   * proc_pagetable of lab page tables.  Its last error branch would leave the trampoline mapped and
   * panic in freewalk; it is unreachable, because the three pages share one level-0 table.
   */
  method ProcPagetable3(k: Kmem, trampoline: nat, trapframe: nat, usysro: nat) returns (root: nat, ghost sp: Space)
    requires k.Valid()
    requires trampoline % 4096 == 0 && trampoline / 4096 < MAXPPN
    requires trapframe % 4096 == 0 && trapframe / 4096 < MAXPPN
    requires usysro % 4096 == 0 && usysro / 4096 < MAXPPN
    modifies k
    ensures k.Valid()
    ensures root == 0 <==> |old(k.free)| < 3
    ensures root == 0 ==> ToSet(k.free) == ToSet(old(k.free))
    ensures root != 0 ==> |k.free| + 3 == |old(k.free)| && Ids(sp) == FixedIds()
    ensures root != 0 ==>
      && Owns(k, sp) && root == sp.RootPage() * 4096 && sp.leaf == HighPages3(trampoline, trapframe, usysro)
      && ToSet(k.free) + Owned(sp) == ToSet(old(k.free)) && ToSet(k.free) <= ToSet(old(k.free))
    ensures Same(old(k.mem), k.mem, ToSet(old(k.free)))
  {
    hide Tree;
    hide LeafPerm;
    hide SetV;
    hide Freeable;
    hide Frames;
    hide ToSet;
    hide Ids;
    hide TableIds;
    hide Missing;
    hide FixedIds;
    hide Owned;
    hide Space.NodePages;
    UserPerm();
    assert USYSCALL / 4096 == USYSCALL_VPN;
    root, sp := ProcPagetable(k, trampoline, trapframe);
    if root == 0 {
      return;
    }
    NodesOwned(sp);
    FixedShared(sp, USYSCALL_VPN);
    var r;
    r, sp := MapHigh(k, root, USYSCALL, usysro, PTE_R + PTE_U, sp);
    if r < 0 {
      assert false;
    }
    OwnsValid(k, sp);
  }

  /** proc_freepagetable of lab page tables. */
  method ProcFreePagetable3(k: Kmem, root: nat, sz: nat, ghost sp: Space)
    requires Owns(k, sp) && root == sp.RootPage() * 4096 && sz <= USYSCALL
    requires forall v: nat :: v in sp.leaf <==> v < Pages(sz) || v == TRAMPOLINE_VPN || v == TRAPFRAME_VPN || v == USYSCALL_VPN
    modifies k
    ensures k.Valid()
    ensures ToSet(k.free) == ToSet(old(k.free)) + Owned(sp)
    ensures Same(old(k.mem), k.mem, Owned(sp))
  {
    hide Owns;
    hide Owned;
    hide ToSet;
    NodesOwned(sp);
    assert Pages(sz) <= USERTOP;
    ghost var sp1 := UnmapHigh(k, root, TRAMPOLINE, sp);
    NodesOwned(sp1);
    ghost var sp2 := UnmapHigh(k, root, TRAPFRAME, sp1);
    NodesOwned(sp2);
    ghost var sp3 := UnmapHigh(k, root, USYSCALL, sp2);
    UvmFree(k, root, sz, sp3);
  }

  /** The leaves of a process of `sz` bytes. */
  ghost predicate ProcLeaves(sp: Space, sz: nat, trampoline: nat, trapframe: nat) {
    && sz <= USYSCALL
    && (forall v: nat :: v in sp.leaf <==> v < Pages(sz) || v == TRAMPOLINE_VPN || v == TRAPFRAME_VPN)
    && sp.leaf[TRAMPOLINE_VPN] == HighPages(trampoline, trapframe)[TRAMPOLINE_VPN]
    && sp.leaf[TRAPFRAME_VPN] == HighPages(trampoline, trapframe)[TRAPFRAME_VPN]
  }

  /**
   * proc_freepagetable: unmap the fixed pages, then free the user memory and the table.  All that
   * the address space owned goes to the free list.
   */
  method ProcFreePagetable(k: Kmem, root: nat, sz: nat, ghost sp: Space, ghost trampoline: nat, ghost trapframe: nat)
    requires Owns(k, sp) && root == sp.RootPage() * 4096 && ProcLeaves(sp, sz, trampoline, trapframe)
    modifies k
    ensures k.Valid()
    ensures ToSet(k.free) == ToSet(old(k.free)) + Owned(sp)
    ensures Same(old(k.mem), k.mem, Owned(sp))
  {
    hide Owns;
    hide Owned;
    hide ToSet;
    NodesOwned(sp);
    assert Pages(sz) <= USERTOP;
    ghost var sp1 := UnmapHigh(k, root, TRAMPOLINE, sp);
    NodesOwned(sp1);
    ghost var sp2 := UnmapHigh(k, root, TRAPFRAME, sp1);
    UvmFree(k, root, sz, sp2);
  }
}
