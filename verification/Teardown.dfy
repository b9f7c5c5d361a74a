/** freewalk and uvmfree (lab page tables/kernel/vm.c): handing a page table back, node by node. */
module Teardown {
  import opened Riscv
  import opened PhysMem
  import opened Kalloc
  import opened PageTable
  import opened Vm
  import opened Uvm

  /** The ancestor of `n` at `level`. */
  ghost function Anc(n: NodeId, level: nat): NodeId
    decreases level - n.level
  {
    if n.level >= level then n else Anc(Parent(n), level)
  }

  /** `n` is `id` or lies below it. */
  ghost predicate Under(n: NodeId, id: NodeId) {
    n.level <= id.level && Anc(n, id.level) == id
  }

  /** `n` lies below one of the first `i` slots of `id`. */
  ghost predicate UnderSlots(n: NodeId, id: NodeId, i: nat) {
    n.level < id.level && Under(n, id) && Anc(n, id.level - 1).key < id.key * 512 + i
  }

  ghost function SubPages(sp: Space, id: NodeId): set<nat> {
    set n | n in sp.nodes && Under(n, id) :: sp.nodes[n]
  }

  ghost function SlotPages(sp: Space, id: NodeId, i: nat): set<nat> {
    set n | n in sp.nodes && UnderSlots(n, id, i) :: sp.nodes[n]
  }

  lemma {:induction false} AncParent(n: NodeId, level: nat)
    requires n.level < level
    ensures Anc(n, level - 1).level == level - 1 && Anc(n, level) == Parent(Anc(n, level - 1))
    decreases level - n.level
  {
    if n.level < level - 1 {
      AncParent(Parent(n), level);
    }
  }

  /** Ancestors of nodes are nodes. */
  lemma {:induction false} AncIn(sp: Space, n: NodeId, level: nat)
    requires sp.Shape() && n in sp.nodes && n.level <= level <= 2
    ensures Anc(n, level) in sp.nodes
    decreases level - n.level
  {
    hide GoodLeaf;
    if n.level < level {
      AncIn(sp, Parent(n), level);
    }
  }

  /** Advancing one slot adds what lies under the child in that slot. */
  lemma SlotStep(sp: Space, n: NodeId, id: NodeId, i: nat)
    requires id.level > 0 && i < 512
    ensures UnderSlots(n, id, i + 1) <==> UnderSlots(n, id, i) || Under(n, sp.Child(id, i))
    ensures !(UnderSlots(n, id, i) && Under(n, sp.Child(id, i))) && !Under(id, sp.Child(id, i))
  {
    KeySlot(id.key, i);
    if n.level < id.level {
      AncParent(n, id.level);
    }
  }

  lemma AllSlots(n: NodeId, id: NodeId)
    ensures UnderSlots(n, id, 512) <==> Under(n, id) && n != id
    ensures !UnderSlots(n, id, 0)
  {
    if n.level < id.level {
      AncParent(n, id.level);
    }
  }

  lemma SlotPagesStep(sp: Space, id: NodeId, i: nat)
    requires sp.Shape() && id in sp.nodes && 0 < id.level <= 2 && i < 512
    ensures SlotPages(sp, id, i + 1) == SlotPages(sp, id, i) + SubPages(sp, sp.Child(id, i))
    ensures sp.Child(id, i) !in sp.nodes ==> SubPages(sp, sp.Child(id, i)) == {}
  {
    hide Space.Shape;
    hide Under;
    hide UnderSlots;
    var c := sp.Child(id, i);
    forall n | n in sp.nodes
      ensures UnderSlots(n, id, i + 1) <==> UnderSlots(n, id, i) || Under(n, c)
    {
      SlotStep(sp, n, id, i);
    }
    if c !in sp.nodes {
      forall n | n in sp.nodes ensures !Under(n, c) {
        NotUnderAbsent(sp, n, c);
      }
    }
  }

  lemma NotUnderAbsent(sp: Space, n: NodeId, c: NodeId)
    requires sp.Shape() && n in sp.nodes && c !in sp.nodes && c.level < 2
    ensures !Under(n, c)
  {
    if n.level <= c.level {
      AncIn(sp, n, c.level);
    }
  }

  /** The subtree at `id` lies in memory, in managed pages that are not free. */
  ghost predicate Subtree(k: Kmem, m: Mem, free: seq<nat>, sp: Space, id: NodeId) {
    forall n | n in sp.nodes && Under(n, id) ::
      Holds(m, sp, n) && k.Managed(sp.nodes[n]) && sp.nodes[n] !in free
  }

  /** Freeing the first `i` subtrees of `id` leaves the next one in place. */
  lemma NextSubtree(k: Kmem, m: Mem, free: seq<nat>, sp: Space, id: NodeId, i: nat, m': Mem, free': seq<nat>)
    requires sp.Shape() && id in sp.nodes && id.level > 0 && i < 512
    requires Subtree(k, m, free, sp, id)
    requires ToSet(free') == ToSet(free) + SlotPages(sp, id, i)
    requires Same(m, m', SlotPages(sp, id, i) + {sp.nodes[id]})
    ensures Subtree(k, m', free', sp, sp.Child(id, i))
  {
    hide Word;
    hide GoodLeaf;
    hide UnderSlots;
    var c := sp.Child(id, i);
    forall n | n in sp.nodes && Under(n, c)
      ensures Holds(m', sp, n) && k.Managed(sp.nodes[n]) && sp.nodes[n] !in free'
    {
      KeySlot(id.key, i);
      AncParent(n, id.level);
      assert Under(n, id);
      SlotStep(sp, n, id, i);
      assert sp.nodes[n] !in SlotPages(sp, id, i) by {
        forall q | q in sp.nodes && UnderSlots(q, id, i) ensures sp.nodes[q] != sp.nodes[n] {
          SlotStep(sp, q, id, i);
        }
      }
      assert n != id by { SlotStep(sp, n, id, i); }
      assert sp.nodes[n] != sp.nodes[id];
      assert Holds(m, sp, n);
      assert sp.nodes[n] !in ToSet(free');
    }
  }

  lemma SubtreeRoot(k: Kmem, m: Mem, free: seq<nat>, sp: Space, id: NodeId)
    requires Subtree(k, m, free, sp, id) && id in sp.nodes
    ensures Holds(m, sp, id) && k.Managed(sp.nodes[id]) && sp.nodes[id] !in free && sp.nodes[id] !in ToSet(free)
  {
    hide Word;
    assert Under(id, id);
  }

  /** What freewalk reads in slot `i` once all leaves are gone. */
  lemma SlotEntry(sp: Space, id: NodeId, i: nat)
    requires sp.leaf == map[] && i < 512
    ensures var pte := sp.Entry(id, i);
      && (V(pte) <==> id.level > 0 && sp.Child(id, i) in sp.nodes)
      && (V(pte) ==> !R(pte) && !W(pte) && !X(pte) && Pte2Pa(pte) == sp.nodes[sp.Child(id, i)] * 4096)
  {
    if id.level > 0 && sp.Child(id, i) in sp.nodes {
      EncodedNode(sp.nodes[sp.Child(id, i)]);
    } else {
      ZeroInvalid();
    }
  }

  lemma OwnPage(sp: Space, id: NodeId, i: nat)
    requires sp.Shape() && id in sp.nodes
    ensures sp.nodes[id] !in SlotPages(sp, id, i)
    ensures id.level > 0 && i < 512 ==> sp.nodes[id] !in SubPages(sp, sp.Child(id, i))
  {
    hide GoodLeaf;
    if id.level > 0 && i < 512 {
      SlotStep(sp, id, id, i);
    }
  }

  lemma NoSlots(sp: Space, id: NodeId, i: nat)
    ensures id.level == 0 || i == 0 ==> SlotPages(sp, id, i) == {}
  {
    forall n ensures !UnderSlots(n, id, 0) {
      AllSlots(n, id);
    }
  }

  lemma WholeSubtree(sp: Space, id: NodeId)
    requires id in sp.nodes
    ensures SubPages(sp, id) == SlotPages(sp, id, 512) + {sp.nodes[id]}
  {
    hide UnderSlots;
    forall n ensures UnderSlots(n, id, 512) <==> Under(n, id) && n != id {
      AllSlots(n, id);
    }
    assert Under(id, id);
  }

  /** State of freewalk on node `id` before slot `i`: the subtrees of the earlier slots are free. */
  ghost predicate SlotsFreed(m0: Mem, free0: seq<nat>, m: Mem, free: seq<nat>, sp: Space, id: NodeId, i: nat)
    requires id in sp.nodes
  {
    && ToSet(free) == ToSet(free0) + SlotPages(sp, id, i)
    && Same(m0, m, SlotPages(sp, id, i) + {sp.nodes[id]})
    && sp.nodes[id] in m
    && forall j: nat | i <= j < 512 :: Word(m[sp.nodes[id]], j) == sp.Entry(id, j)
  }

  /** One turn of the loop of freewalk. */
  method FreeSlot(k: Kmem, pagetable: nat, i: nat, ghost id: NodeId, ghost sp: Space, ghost m0: Mem, ghost free0: seq<nat>)
    requires k.Valid() && sp.Shape() && sp.leaf == map[] && i < 512
    requires id in sp.nodes && pagetable == sp.nodes[id] * 4096
    requires Subtree(k, m0, free0, sp, id) && SlotsFreed(m0, free0, k.mem, k.free, sp, id, i)
    modifies k
    ensures k.Valid() && SlotsFreed(m0, free0, k.mem, k.free, sp, id, i + 1)
    decreases id.level, 0
  {
    hide Kmem.Valid;
    hide Word;
    hide SetWord;
    hide WordAddr;
    hide SlotPages;
    hide SubPages;
    hide ToSet;
    hide Subtree;
    hide GoodLeaf;
    hide R;
    hide V;
    hide W;
    hide X;
    hide Pte2Pa;
    ghost var page := sp.nodes[id];
    SubtreeRoot(k, m0, free0, sp, id);
    OwnPage(sp, id, i);
    WordAddrParts(page, i);
    SlotEntry(sp, id, i);
    var pte := k.Load(WordAddr(pagetable / 4096, i));
    if V(pte) && !R(pte) && !W(pte) && !X(pte) {
      var child := Pte2Pa(pte);
      NextSubtree(k, m0, free0, sp, id, i, k.mem, k.free);
      SlotPagesStep(sp, id, i);
      FreeWalk(k, child, sp.Child(id, i), sp);
      ghost var m: Mem := k.mem;
      InToSet(k.free, page);
      k.Store(WordAddr(pagetable / 4096, i), 0);
      WordsOfSetWord(m[page], i, 0);
    } else if V(pte) {
      assert false; // panic("freewalk: leaf")
    } else {
      if id.level > 0 {
        SlotPagesStep(sp, id, i);
      } else {
        NoSlots(sp, id, i);
        NoSlots(sp, id, i + 1);
      }
    }
  }

  /**
   * freewalk: every page of the subtree at `id` goes to the free list, although kfree overwrites
   * each page it takes.  No leaf may remain.
   */
  method FreeWalk(k: Kmem, pagetable: nat, ghost id: NodeId, ghost sp: Space)
    requires k.Valid() && sp.Shape() && sp.leaf == map[]
    requires id in sp.nodes && pagetable == sp.nodes[id] * 4096
    requires Subtree(k, k.mem, k.free, sp, id)
    modifies k
    ensures k.Valid()
    ensures ToSet(k.free) == ToSet(old(k.free)) + SubPages(sp, id)
    ensures Same(old(k.mem), k.mem, SubPages(sp, id))
    decreases id.level, 1
  {
    hide Kmem.Valid;
    hide Space.Shape;
    hide Word;
    hide SlotPages;
    hide SubPages;
    hide ToSet;
    hide Subtree;
    ghost var page := sp.nodes[id];
    SubtreeRoot(k, k.mem, k.free, sp, id);
    NoSlots(sp, id, 0);
    var i := 0;
    while i < 512
      invariant 0 <= i <= 512
      invariant k.Valid() && SlotsFreed(old(k.mem), old(k.free), k.mem, k.free, sp, id, i)
    {
      FreeSlot(k, pagetable, i, id, sp, old(k.mem), old(k.free));
      i := i + 1;
    }
    OwnPage(sp, id, 512);
    WholeSubtree(sp, id);
    InToSet(k.free, page);
    PushSet(k.free, page);
    k.Kfree(pagetable);
  }

  /** Every node of a tree lies under its root. */
  lemma RootSubtree(k: Kmem, sp: Space)
    requires Tree(k, sp)
    ensures SubPages(sp, Root) == sp.NodePages() && Subtree(k, k.mem, k.free, sp, Root)
  {
    hide Holds;
    hide GoodLeaf;
    forall n | n in sp.nodes ensures Under(n, Root) {
      AncIn(sp, n, 2);
      if n.level < 2 {
        AncParent(n, 2);
      }
    }
    forall n | n in sp.nodes ensures sp.nodes[n] in sp.NodePages() {
    }
  }

  /**
   * uvmfree: free `sz` bytes of user memory, then the page table.  Everything the address space
   * owned is free afterwards, and nothing else was touched.
   */
  method UvmFree(k: Kmem, root: nat, sz: nat, ghost sp: Space)
    requires Owns(k, sp) && root == sp.RootPage() * 4096 && sz <= USYSCALL
    requires forall v: nat :: v in sp.leaf <==> v < Pages(sz)
    modifies k
    ensures k.Valid()
    ensures ToSet(k.free) == ToSet(old(k.free)) + Owned(sp)
    ensures Same(old(k.mem), k.mem, Owned(sp))
  {
    hide Tree;
    hide Freeable;
    hide Frames;
    hide Without;
    hide ToSet;
    hide Space.NodePages;
    hide SubPages;
    hide Pages;
    hide PgRoundUp;
    RoundUpPages(sz);
    ghost var n := Pages(sz);
    ghost var sp1 := sp;
    NoLeaves(sp, n);
    if sz > 0 {
      FreeablePart(k, k.free, sp, 0, n);
      var npages := PgRoundUp(sz) / 4096;
      var start: nat := 0;
      assert npages == n && start / 4096 == 0 && start % 4096 == 0;
      sp1 := UvmUnmap(k, root, start, npages, true, sp);
      assert start / 4096 + npages == n;
      assert sp1.leaf == map[];
      assert Same(old(k.mem), k.mem, sp.NodePages() + Frames(sp.leaf, 0, n));
      assert ToSet(k.free) == ToSet(old(k.free)) + Frames(sp.leaf, 0, n);
    }
    assert sp1.leaf == map[] && sp1.nodes == sp.nodes;
    RootNode(k, sp1);
    RootSubtree(k, sp1);
    TreeValid(k, sp1);
    SameNodes(sp, sp1);
    assert ToSet(k.free) == ToSet(old(k.free)) + Frames(sp.leaf, 0, USERTOP);
    assert Same(old(k.mem), k.mem, Owned(sp));
    FreeWalk(k, root, Root, sp1);
  }

  lemma NoLeaves(sp: Space, n: nat)
    requires forall v: nat :: v in sp.leaf <==> v < n
    requires n <= USERTOP
    ensures Without(sp.leaf, 0, n) == map[]
    ensures Frames(sp.leaf, 0, n) == Frames(sp.leaf, 0, USERTOP)
    ensures n == 0 ==> sp.leaf == map[] && Frames(sp.leaf, 0, USERTOP) == {}
  {
  }

  lemma TreeValid(k: Kmem, sp: Space)
    requires Tree(k, sp)
    ensures k.Valid()
  {
  }

  lemma SameNodes(sp: Space, sp': Space)
    requires sp.nodes == sp'.nodes
    ensures sp.NodePages() == sp'.NodePages()
  {
  }
}
