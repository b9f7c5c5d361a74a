/** uvmcopy (lab page tables/kernel/vm.c): duplicating the user memory of a process for fork. */
module Copy {
  import opened Riscv
  import opened PhysMem
  import opened Kalloc
  import opened PageTable
  import opened Vm
  import opened Uvm

  /** Page `u` of `child` has the flags of page `u` of `parent` in a frame holding what the parent's frame held in `m0`. */
  ghost predicate CopiedPage(m0: Mem, m: Mem, parent: Space, child: Space, u: nat) {
    && u in parent.leaf && u in child.leaf
    && child.leaf[u].flags == parent.leaf[u].flags
    && parent.leaf[u].frame in m0 && child.leaf[u].frame in m
    && m[child.leaf[u].frame] == m0[parent.leaf[u].frame]
  }

  /** `child` is `child0` with copies of the pages [0, v) of `parent`. */
  ghost predicate Copied(m0: Mem, m: Mem, parent: Space, child0: Space, child: Space, v: nat) {
    && Without(child.leaf, 0, v) == child0.leaf
    && forall u: nat | u < v :: CopiedPage(m0, m, parent, child, u)
  }

  /** `child` is `child0` with pages [0, v) mapped to frames that were free in `free0`. */
  ghost predicate Taken(m0: Mem, free0: seq<nat>, child0: Space, m: Mem, free: seq<nat>, child: Space, v: nat) {
    && child.RootPage() == child0.RootPage()
    && Balanced(free0, child0, free, child)
    && Same(m0, m, child0.NodePages() + ToSet(free0))
    && ToSet(free) + child.NodePages() <= ToSet(free0) + child0.NodePages() && ToSet(free) <= ToSet(free0)
    && Frames(child.leaf, 0, v) <= ToSet(free0)
    && Without(child.leaf, 0, v) == child0.leaf
    && forall u: nat | u < v :: u in child.leaf
  }

  /** What holds in the loop of uvmcopy once the pages [0, v) have been copied. */
  ghost predicate Copying(m0: Mem, free0: seq<nat>, parent: Space, child0: Space, m: Mem, free: seq<nat>, child: Space, v: nat) {
    && Taken(m0, free0, child0, m, free, child, v) && Copied(m0, m, parent, child0, child, v)
    && Counted(free0, child0, free, child, 0, v)
  }

  /** Another address space stays owned while free pages move into this one. */
  lemma OtherOwner(k: Kmem, m: Mem, free: seq<nat>, sp: Space, other: Space)
    requires k.Valid() && OwnsAt(k, m, free, sp) && Owned(sp) !! ToSet(free)
    requires ToSet(k.free) <= ToSet(free)
    requires Owned(other) !! Owned(sp)
    requires Same(m, k.mem, other.NodePages() + ToSet(free))
    requires forall p | p in Owned(sp) :: p in m
    ensures Owns(k, sp)
  {
    hide WF;
    hide Freeable;
    hide Kmem.Valid;
    hide Frames;
    hide ToSet;
    hide Space.NodePages;
    assert sp.NodePages() <= Owned(sp);
    assert other.NodePages() <= Owned(other);
    OwnsFrame(k, m, free, sp);
  }

  /** One turn of uvmcopy. */
  method CopyOne(k: Kmem, oldRoot: nat, newRoot: nat, i: nat, ghost parent: Space, ghost child: Space) returns (ok: bool, ghost child': Space)
    requires Owns(k, parent) && oldRoot == parent.RootPage() * 4096
    requires Owns(k, child) && newRoot == child.RootPage() * 4096
    requires Owned(parent) !! Owned(child)
    requires i % 4096 == 0 && i / 4096 < USERTOP && i / 4096 in parent.leaf && i / 4096 !in child.leaf
    modifies k
    ensures Owns(k, parent) && Owns(k, child') && Owned(parent) !! Owned(child')
    ensures child'.RootPage() == child.RootPage()
    ensures Balanced(old(k.free), child, k.free, child')
    ensures Same(old(k.mem), k.mem, child.NodePages() + ToSet(old(k.free)))
    ensures ToSet(k.free) + child'.NodePages() <= ToSet(old(k.free)) + child.NodePages() && ToSet(k.free) <= ToSet(old(k.free))
    ensures !ok ==> child'.leaf == child.leaf
    ensures ok <==> 1 + Missing(child, i / 4096, i / 4096 + 1) <= |old(k.free)|
    ensures ok ==> Ids(child') == Ids(child) + TableIds(i / 4096, i / 4096 + 1) && |k.free| + 1 + |Ids(child')| == |old(k.free)| + |Ids(child)|
    ensures ok ==>
      && old(k.free) != [] && old(k.free)[0] in ToSet(old(k.free))
      && child'.leaf == child.leaf[i / 4096 := Leaf(old(k.free)[0], parent.leaf[i / 4096].flags)]
      && CopiedPage(old(k.mem), k.mem, parent, child', i / 4096)
  {
    hide WF;
    hide Kmem.Valid;
    hide Frames;
    hide Freeable;
    hide ToSet;
    hide Owned;
    hide V;
    hide Pte2Pa;
    hide PteFlags;
    hide Ids;
    hide TableIds;
    hide Missing;
    ghost var v := i / 4096;
    ghost var m: Mem, free := k.mem, k.free;
    FrameBeside(k, parent, v);
    OwnedPages(k, parent);
    OwnedPages(k, child);
    LeafNode(k, parent, v);
    var pte;
    ghost var same;
    pte, same := Walk(k, oldRoot, i, false, parent);
    if pte == 0 {
      assert false; // panic("uvmcopy: pte should exist")
    }
    var w := LoadEntry(k, pte, v, parent);
    if !V(w) {
      assert false; // panic("uvmcopy: page not present")
    }
    var pa, flags := Pte2Pa(w), PteFlags(w);
    child' := child;
    var mem := KallocBeside(k, child);
    if mem == 0 {
      return false, child;
    }
    ok, child' := MapFilled(k, newRoot, i, mem, k.mem[pa / 4096], flags, child);
    OtherOwner(k, m, free, parent, child);
  }

  lemma CopyingStart(parent: Space, child: Space, m: Mem, free: seq<nat>)
    ensures Copying(m, free, parent, child, m, free, child, 0)
  {
    NothingWithout(child.leaf, 0, 0);
    EmptyRange(child.leaf, 0);
    CountedStart(free, child, 0);
  }

  lemma TakenStep(m0: Mem, free0: seq<nat>, child0: Space, m: Mem, free: seq<nat>, child: Space, v: nat, m': Mem, free': seq<nat>, child': Space, l: Leaf)
    requires Taken(m0, free0, child0, m, free, child, v) && v !in child.leaf
    requires child'.RootPage() == child.RootPage() && Balanced(free, child, free', child')
    requires Same(m, m', child.NodePages() + ToSet(free))
    requires ToSet(free') + child'.NodePages() <= ToSet(free) + child.NodePages() && ToSet(free') <= ToSet(free)
    requires l.frame in ToSet(free) && child'.leaf == child.leaf[v := l]
    ensures Taken(m0, free0, child0, m', free', child', v + 1)
  {
    hide ToSet;
    hide Space.NodePages;
    hide Owned;
    hide Frames;
    RangeStep(child'.leaf, 0, v);
    FramesBelow(child.leaf, v, l, 0);
    assert Without(child'.leaf, 0, v + 1) == Without(child.leaf, 0, v);
  }

  /** Pages copied earlier are not disturbed by copying the next one. */
  lemma CopiedStep(k: Kmem, m0: Mem, parent: Space, child0: Space, m: Mem, free: seq<nat>, child: Space, v: nat, m': Mem, child': Space)
    requires Copied(m0, m, parent, child0, child, v) && v !in child.leaf && v < USERTOP
    requires OwnsAt(k, m, free, child)
    requires Same(m, m', child.NodePages() + ToSet(free))
    requires v in child'.leaf && child'.leaf == child.leaf[v := child'.leaf[v]]
    requires CopiedPage(m0, m', parent, child', v)
    ensures Copied(m0, m', parent, child0, child', v + 1)
  {
    hide WF;
    hide ToSet;
    assert Without(child'.leaf, 0, v + 1) == Without(child.leaf, 0, v);
    forall u: nat | u < v
      ensures CopiedPage(m0, m', parent, child', u)
    {
      assert CopiedPage(m0, m, parent, child, u);
      InToSet(free, child.leaf[u].frame);
      assert child.leaf[u].frame !in child.NodePages() + ToSet(free);
    }
  }

  /** The frames of the parent hold what they held before the child got anything. */
  lemma ParentUntouched(m0: Mem, free0: seq<nat>, parent: Space, child0: Space, m: Mem, free: seq<nat>, child: Space, v: nat)
    requires v in parent.leaf && v < USERTOP
    requires Owned(parent) !! Owned(child0) + ToSet(free0)
    requires Taken(m0, free0, child0, m, free, child, v)
    ensures forall m': Mem, child': Space :: CopiedPage(m, m', parent, child', v) ==> CopiedPage(m0, m', parent, child', v)
  {
    hide ToSet;
    hide Frames;
    assert parent.leaf[v].frame in Owned(parent) by {
      FrameOwned(parent, v);
    }
    assert parent.leaf[v].frame !in child0.NodePages() + ToSet(free0);
  }

  lemma FrameOwned(sp: Space, v: nat)
    requires v in sp.leaf && v < USERTOP
    ensures sp.leaf[v].frame in Owned(sp)
  {
    assert sp.leaf[v].frame in Frames(sp.leaf, 0, USERTOP);
  }

  /** A turn that failed took no new page. */
  lemma TakenFail(m0: Mem, free0: seq<nat>, child0: Space, m: Mem, free: seq<nat>, child: Space, v: nat, m': Mem, free': seq<nat>, child': Space)
    requires Taken(m0, free0, child0, m, free, child, v)
    requires child'.RootPage() == child.RootPage() && child'.leaf == child.leaf && Balanced(free, child, free', child')
    requires Same(m, m', child.NodePages() + ToSet(free))
    requires ToSet(free') + child'.NodePages() <= ToSet(free) + child.NodePages() && ToSet(free') <= ToSet(free)
    ensures Taken(m0, free0, child0, m', free', child', v)
  {
    hide ToSet;
    hide Frames;
    hide Space.NodePages;
  }

  /** The error path of uvmcopy: uvmunmap(new, 0, i / PGSIZE, 1). */
  method UnmapCopied(k: Kmem, newRoot: nat, i: nat, ghost m0: Mem, ghost free0: seq<nat>, ghost child0: Space, ghost child: Space)
    returns (ghost child': Space)
    requires Owns(k, child) && newRoot == child.RootPage() * 4096
    requires i % 4096 == 0 && i <= USYSCALL && Taken(m0, free0, child0, k.mem, k.free, child, i / 4096)
    modifies k
    ensures Owns(k, child') && child'.leaf == child0.leaf && child'.RootPage() == child0.RootPage()
    ensures Balanced(free0, child0, k.free, child')
    ensures Same(m0, k.mem, child0.NodePages() + ToSet(free0))
    ensures ToSet(k.free) <= ToSet(free0)
  {
    hide Tree;
    hide Frames;
    hide ToSet;
    hide Without;
    hide Freeable;
    ghost var free := k.free;
    ghost var v := i / 4096;
    var start: nat := 0;
    assert start / 4096 == 0 && start % 4096 == 0;
    FreeablePart(k, k.free, child, 0, v);
    child' := UvmUnmap(k, newRoot, start, i / 4096, true, child);
    assert start / 4096 + i / 4096 == v;
    Unmapped(k, free, child, 0, v, k.free, child');
    RootNode(k, child');
  }

  lemma OwnsNow(k: Kmem, sp: Space)
    requires Owns(k, sp)
    ensures OwnsAt(k, k.mem, k.free, sp)
  {
  }

  /** At the start of uvmcopy the parent shares no page with the child or the free list. */
  ghost predicate Apart(k: Kmem, m0: Mem, free0: seq<nat>, parent: Space, child0: Space) {
    && OwnsAt(k, m0, free0, parent)
    && Owned(parent) !! Owned(child0) + ToSet(free0)
    && forall p | p in Owned(parent) :: p in m0
  }

  lemma ApartNow(k: Kmem, parent: Space, child: Space)
    requires Owns(k, parent) && Owned(parent) !! Owned(child)
    ensures Apart(k, k.mem, k.free, parent, child)
  {
    OwnedPages(k, parent);
    OwnsNow(k, parent);
  }

  /** One turn of the loop of uvmcopy. */
  method CopyTurn(k: Kmem, oldRoot: nat, newRoot: nat, i: nat, ghost m0: Mem, ghost free0: seq<nat>, ghost parent: Space, ghost child0: Space, ghost child: Space, ghost v: nat)
    returns (ok: bool, ghost child': Space)
    requires Owns(k, parent) && oldRoot == parent.RootPage() * 4096
    requires Owns(k, child) && newRoot == child.RootPage() * 4096
    requires Owned(parent) !! Owned(child) && Apart(k, m0, free0, parent, child0)
    requires i == v * 4096 && v < USERTOP && v in parent.leaf && v !in child.leaf
    requires Copying(m0, free0, parent, child0, k.mem, k.free, child, v)
    modifies k
    ensures Owns(k, parent) && Owns(k, child') && Owned(parent) !! Owned(child')
    ensures ok ==> Copying(m0, free0, parent, child0, k.mem, k.free, child', v + 1)
    ensures !ok ==> Taken(m0, free0, child0, k.mem, k.free, child', v) && |free0| < Need(child0, 0, v + 1)
  {
    hide Owns;
    hide Owned;
    hide Copied;
    hide Frames;
    hide ToSet;
    hide Without;
    hide Taken;
    hide Counted;
    hide Need;
    hide Missing;
    hide TableIds;
    hide Ids;
    assert i / 4096 == v && i % 4096 == 0;
    ghost var m: Mem, free := k.mem, k.free;
    CountedNeed(free0, child0, free, child, 0, v);
    OwnsNow(k, child);
    RootsKept(m0, free0, child0, m, free, child, v);
    ok, child' := CopyOne(k, oldRoot, newRoot, i, parent, child);
    if ok {
      ParentUntouched(m0, free0, parent, child0, m, free, child, v);
      TakenStep(m0, free0, child0, m, free, child, v, k.mem, k.free, child', child'.leaf[v]);
      CopiedStep(k, m0, parent, child0, m, free, child, v, k.mem, child');
      CountedStep(free0, child0, free, child, k.free, child', 0, v);
    } else {
      TakenFail(m0, free0, child0, m, free, child, v, k.mem, k.free, child');
    }
  }

  lemma RootsKept(m0: Mem, free0: seq<nat>, child0: Space, m: Mem, free: seq<nat>, child: Space, v: nat)
    requires Taken(m0, free0, child0, m, free, child, v)
    ensures child.RootPage() == child0.RootPage()
    ensures v !in child0.leaf ==> v !in child.leaf
  {
    WithoutAt(child.leaf, 0, v, v);
  }

  /** The error path as the loop of uvmcopy takes it. */
  method CopyFailed(k: Kmem, newRoot: nat, i: nat, ghost m0: Mem, ghost free0: seq<nat>, ghost parent: Space, ghost child0: Space, ghost child: Space, ghost v: nat)
    returns (ghost child': Space)
    requires Owns(k, child) && newRoot == child0.RootPage() * 4096
    requires i == v * 4096 && i <= USYSCALL && Taken(m0, free0, child0, k.mem, k.free, child, v)
    requires Apart(k, m0, free0, parent, child0)
    modifies k
    ensures Owns(k, parent) && Owns(k, child') && Owned(parent) !! Owned(child')
    ensures child'.RootPage() == child0.RootPage() && child'.leaf == child0.leaf
    ensures Balanced(free0, child0, k.free, child')
    ensures Same(m0, k.mem, child0.NodePages() + ToSet(free0))
  {
    hide Owns;
    hide Owned;
    hide ToSet;
    hide Taken;
    assert i / 4096 == v && i % 4096 == 0;
    RootsKept(m0, free0, child0, k.mem, k.free, child, v);
    child' := UnmapCopied(k, newRoot, i, m0, free0, child0, child);
    OwnsValid(k, child');
    OtherOwner(k, m0, free0, parent, child0);
    OwnedStays(parent, child0, free0, child', k.free);
  }

  /**
   * uvmcopy: give `child` copies of the first `sz` bytes of `parent`, page by page.  On failure
   * the pages mapped so far are freed and the leaf map of `child` is what it was.
   */
  method UvmCopy(k: Kmem, oldRoot: nat, newRoot: nat, sz: nat, ghost parent: Space, ghost child: Space) returns (r: int, ghost child': Space)
    requires Owns(k, parent) && oldRoot == parent.RootPage() * 4096
    requires Owns(k, child) && newRoot == child.RootPage() * 4096
    requires Owned(parent) !! Owned(child) && sz <= USYSCALL
    requires forall v: nat | v < Pages(sz) :: v in parent.leaf && v !in child.leaf
    modifies k
    ensures r == 0 || r == -1
    ensures Owns(k, parent) && Owns(k, child') && Owned(parent) !! Owned(child')
    ensures child'.RootPage() == child.RootPage()
    ensures Balanced(old(k.free), child, k.free, child')
    ensures Same(old(k.mem), k.mem, child.NodePages() + ToSet(old(k.free)))
    ensures r == 0 ==> Copied(old(k.mem), k.mem, parent, child, child', Pages(sz))
    ensures r == -1 ==> child'.leaf == child.leaf
    ensures r == 0 <==> Need(child, 0, Pages(sz)) <= |old(k.free)|
    ensures r == 0 ==> |k.free| == |old(k.free)| - Need(child, 0, Pages(sz))
  {
    hide Owns;
    hide Owned;
    hide Copied;
    hide ToSet;
    hide Pages;
    hide PgRoundUp;
    hide Taken;
    hide Copying;
    hide Same;
    hide Need;
    ghost var m0: Mem, free0 := k.mem, k.free;
    RoundUpPages(sz);
    PagesHold(sz);
    r, child' := CopyPages(k, oldRoot, newRoot, sz, Pages(sz), parent, child);
    if r == 0 {
      CopyingDone(m0, free0, parent, child, k.mem, k.free, child', Pages(sz));
    }
  }

  /** The loop of uvmcopy, with its error path. */
  method CopyPages(k: Kmem, oldRoot: nat, newRoot: nat, sz: nat, ghost n: nat, ghost parent: Space, ghost child: Space) returns (r: int, ghost child': Space)
    requires Owns(k, parent) && oldRoot == parent.RootPage() * 4096
    requires Owns(k, child) && newRoot == child.RootPage() * 4096
    requires Owned(parent) !! Owned(child) && n <= USERTOP && sz <= n * 4096 < sz + 4096
    requires forall v: nat | v < n :: v in parent.leaf && v !in child.leaf
    modifies k
    ensures r == 0 || r == -1
    ensures Owns(k, parent) && Owns(k, child') && Owned(parent) !! Owned(child')
    ensures r == 0 ==> Copying(old(k.mem), old(k.free), parent, child, k.mem, k.free, child', n)
    ensures r == -1 ==> |old(k.free)| < Need(child, 0, n)
    ensures r == -1 ==> child'.RootPage() == child.RootPage() && child'.leaf == child.leaf
    ensures r == -1 ==> Balanced(old(k.free), child, k.free, child')
    ensures r == -1 ==> Same(old(k.mem), k.mem, child.NodePages() + ToSet(old(k.free)))
  {
    hide Owns;
    hide Owned;
    hide Copied;
    hide ToSet;
    hide Taken;
    hide Copying;
    hide Same;
    hide Need;
    hide Balanced;
    hide Apart;
    child' := child;
    ghost var m0: Mem, free0 := k.mem, k.free;
    CopyingStart(parent, child, m0, free0);
    ApartNow(k, parent, child);
    var i := 0;
    ghost var v := 0;
    while i < sz
      invariant i == v * 4096 && v <= n
      invariant Owns(k, parent) && Owns(k, child') && Owned(parent) !! Owned(child')
      invariant Copying(m0, free0, parent, child, k.mem, k.free, child', v)
      decreases n - v
    {
      CopyingTaken(m0, free0, parent, child, k.mem, k.free, child', v);
      RootsKept(m0, free0, child, k.mem, k.free, child', v);
      var ok;
      ok, child' := CopyTurn(k, oldRoot, newRoot, i, m0, free0, parent, child, child', v);
      if !ok {
        NeedMonotone(child, 0, v + 1, n);
        child' := CopyFailed(k, newRoot, i, m0, free0, parent, child, child', v);
        return -1, child';
      }
      i := i + 4096;
      v := v + 1;
    }
    assert v == n;
    r := 0;
  }

  lemma CopyingTaken(m0: Mem, free0: seq<nat>, parent: Space, child0: Space, m: Mem, free: seq<nat>, child: Space, v: nat)
    requires Copying(m0, free0, parent, child0, m, free, child, v)
    ensures Taken(m0, free0, child0, m, free, child, v)
  {
  }

  lemma CopyingDone(m0: Mem, free0: seq<nat>, parent: Space, child0: Space, m: Mem, free: seq<nat>, child: Space, v: nat)
    requires Copying(m0, free0, parent, child0, m, free, child, v)
    ensures child.RootPage() == child0.RootPage() && Balanced(free0, child0, free, child)
    ensures Same(m0, m, child0.NodePages() + ToSet(free0))
    ensures Copied(m0, m, parent, child0, child, v)
    ensures |free| == |free0| - Need(child0, 0, v)
  {
    CountedNeed(free0, child0, free, child, 0, v);
  }

  lemma OwnedStays(parent: Space, child0: Space, free0: seq<nat>, child: Space, free: seq<nat>)
    requires Owned(parent) !! Owned(child0) + ToSet(free0) && Balanced(free0, child0, free, child)
    ensures Owned(parent) !! Owned(child)
  {
    hide Owned;
    hide ToSet;
    assert Owned(child) <= Owned(child0) + ToSet(free0);
  }
}
