/**
 * User memory on top of the page tables (lab page tables/kernel/vm.c): growing, shrinking, copying
 * and freeing address spaces, with the ownership of every page accounted for.
 */
module Uvm {
  import opened Riscv
  import opened PhysMem
  import opened Kalloc
  import opened PageTable
  import opened Vm

  // User pages lie below the three fixed high pages.
  const USERTOP: nat := USYSCALL_VPN

  /** The pages an address space owns: its tree nodes and the frames of its user pages. */
  ghost function Owned(sp: Space): set<nat> {
    sp.NodePages() + Frames(sp.leaf, 0, USERTOP)
  }

  /** The tree is in memory and every user frame has one owner: this page number of this space. */
  ghost predicate Owns(k: Kmem, sp: Space)
    reads k
  {
    Tree(k, sp) && Freeable(k, k.free, sp, 0, USERTOP)
  }

  /** The same of a memory and free list given as values. */
  ghost predicate OwnsAt(k: Kmem, m: Mem, free: seq<nat>, sp: Space) {
    TreeAt(k, m, free, sp) && Freeable(k, free, sp, 0, USERTOP)
  }

  /** Ownership survives whatever leaves the tree alone and frees nothing of the space. */
  lemma OwnsFrame(k: Kmem, m: Mem, free: seq<nat>, sp: Space)
    requires k.Valid() && OwnsAt(k, m, free, sp)
    requires forall p | p in sp.NodePages() :: p in m && p in k.mem && k.mem[p] == m[p]
    requires Owned(sp) !! ToSet(k.free)
    ensures Owns(k, sp)
  {
    hide WF;
    hide Kmem.Valid;
    assert forall p | p in k.free :: p in ToSet(k.free);
    forall v | v in sp.leaf && v < USERTOP ensures sp.leaf[v].frame !in k.free {
      assert sp.leaf[v].frame in Frames(sp.leaf, 0, USERTOP);
    }
    WFFrame(m, k.mem, sp);
  }

  lemma OwnsValid(k: Kmem, sp: Space)
    requires Owns(k, sp)
    ensures k.Valid()
  {
  }

  lemma NotOwned(sp: Space, p: nat)
    ensures p !in Owned(sp) ==> p !in sp.NodePages()
  {
  }

  /** What an owner knows of the pages it owns. */
  lemma OwnedPages(k: Kmem, sp: Space)
    requires Owns(k, sp)
    ensures k.Valid() && Owned(sp) !! ToSet(k.free)
    ensures forall p | p in Owned(sp) :: k.Managed(p) && p in k.mem && 0 < p < MAXPPN
  {
    hide WF;
    forall p | p in Owned(sp) ensures k.Managed(p) && p in k.mem && 0 < p < MAXPPN && p !in k.free {
      if p in Frames(sp.leaf, 0, USERTOP) {
        var v :| v in sp.leaf && v < USERTOP && sp.leaf[v].frame == p;
      }
      ManagedInMem(k, p);
    }
  }

  /** No page is lost or gained: free pages and owned pages together stay the same set. */
  ghost predicate Balanced(free: seq<nat>, sp: Space, free': seq<nat>, sp': Space) {
    ToSet(free') + Owned(sp') == ToSet(free) + Owned(sp)
  }

  lemma FramesInsert(leaf: map<nat, Leaf>, v: nat, l: Leaf, lo: nat, hi: nat)
    requires v !in leaf && lo <= v < hi
    ensures Frames(leaf[v := l], lo, hi) == Frames(leaf, lo, hi) + {l.frame}
  {
    var leaf' := leaf[v := l];
    assert leaf'[v] == l;
    forall u | u in leaf ensures u in leaf' && leaf'[u] == leaf[u] {
    }
    assert l.frame in Frames(leaf', lo, hi);
    assert forall f | f in Frames(leaf, lo, hi) :: f in Frames(leaf', lo, hi);
  }

  lemma FramesSplit(leaf: map<nat, Leaf>, lo: nat, hi: nat, top: nat)
    requires lo <= hi <= top
    ensures Frames(leaf, 0, top) == Frames(Without(leaf, lo, hi), 0, top) + Frames(leaf, lo, hi)
  {
    forall f ensures f in Frames(leaf, 0, top) <==> f in Frames(Without(leaf, lo, hi), 0, top) + Frames(leaf, lo, hi) {
      if f in Frames(leaf, 0, top) {
        var v :| v in leaf && v < top && leaf[v].frame == f;
        WithoutAt(leaf, lo, hi, v);
      }
    }
  }

  /** A page that is nobody's becomes the frame of one fresh user page. */
  method MapFresh(k: Kmem, root: nat, a: nat, pa: nat, perm: nat, ghost sp: Space) returns (r: int, ghost sp': Space)
    requires Owns(k, sp) && root == sp.RootPage() * 4096
    requires a % 4096 == 0 && a / 4096 < USERTOP && a / 4096 !in sp.leaf
    requires pa % 4096 == 0 && k.Managed(pa / 4096) && pa / 4096 !in k.free && pa / 4096 !in Owned(sp)
    requires LeafPerm(perm)
    modifies k
    ensures Owns(k, sp') && sp'.RootPage() == sp.RootPage()
    ensures |k.free| <= |old(k.free)|
    ensures Same(old(k.mem), k.mem, sp'.NodePages())
    ensures sp.NodePages() <= sp'.NodePages()
    ensures ToSet(k.free) + sp'.NodePages() == ToSet(old(k.free)) + sp.NodePages() && ToSet(k.free) <= ToSet(old(k.free))
    ensures pa / 4096 !in sp'.NodePages()
    ensures r == 0 || r == -1
    ensures HasTable(sp, a / 4096) ==> r == 0 && sp'.nodes == sp.nodes && k.free == old(k.free)
    ensures r == 0 <==> Missing(sp, a / 4096, a / 4096 + 1) <= |old(k.free)|
    ensures r == 0 ==> Ids(sp') == Ids(sp) + TableIds(a / 4096, a / 4096 + 1)
    ensures |k.free| + |Ids(sp')| == |old(k.free)| + |Ids(sp)|
    ensures r == 0 ==>
      && sp'.leaf == sp.leaf[a / 4096 := Leaf(pa / 4096, SetV(perm))]
      && ToSet(k.free) + Owned(sp') == ToSet(old(k.free)) + Owned(sp) + {pa / 4096}
    ensures r == -1 ==>
      && sp'.leaf == sp.leaf
      && pa / 4096 !in k.free && pa / 4096 !in Owned(sp')
      && Balanced(old(k.free), sp, k.free, sp')
  {
    hide Tree;
    hide LeafPerm;
    hide SetV;
    hide Freeable;
    hide Frames;
    hide Ids;
    hide TableIds;
    hide Missing;
    hide Conserved;
    ghost var v, l := a / 4096, Leaf(pa / 4096, SetV(perm));
    OwnsManaged(k, sp, l.frame);
    ghost var done;
    assert (a + 4096) / 4096 == v + 1;
    r, sp', done := MapPages(k, root, a, 4096, pa, perm, sp);
    ConservedCount(old(k.free), sp, k.free, sp');
    ConservedNodes(old(k.free), sp, k.free, sp', sp.(nodes := sp'.nodes));
    assert MapRange(sp.leaf, v, l.frame, 0, l.flags) == sp.leaf;
    assert MapRange(sp.leaf, v, l.frame, 1, l.flags) == sp.leaf[v := l];
    TreeGrown(k, old(k.free), sp, k.free, sp.(nodes := sp'.nodes));
    FreeShrinks(k, old(k.free), sp, sp');
    if r == 0 {
      FreshMapped(k, k.free, sp.(nodes := sp'.nodes), v, l);
    }
  }

  lemma WithFrames(free': set<nat>, nodes': set<nat>, free: set<nat>, nodes: set<nat>, frames: set<nat>)
    requires free' + nodes' == free + nodes
    ensures free' + (nodes' + frames) == free + (nodes + frames)
  {
    assert free' + (nodes' + frames) == (free' + nodes') + frames;
    assert free + (nodes + frames) == (free + nodes) + frames;
  }

  /** A conserved step that keeps the leaves keeps ownership. */
  lemma TreeGrown(k: Kmem, free: seq<nat>, sp: Space, free': seq<nat>, sp': Space)
    requires Freeable(k, free, sp, 0, USERTOP) && Conserved(free, sp, free', sp') && sp'.leaf == sp.leaf
    ensures Freeable(k, free', sp', 0, USERTOP) && Balanced(free, sp, free', sp')
    ensures sp'.NodePages() <= sp.NodePages() + ToSet(free)
    ensures ToSet(free') + sp'.NodePages() == ToSet(free) + sp.NodePages()
    ensures forall p | p !in free && p !in Owned(sp) :: p !in free' && p !in Owned(sp')
  {
    hide Frames;
    WithFrames(ToSet(free'), sp'.NodePages(), ToSet(free), sp.NodePages(), Frames(sp.leaf, 0, USERTOP));
    forall p | p !in ToSet(free) + sp.NodePages() ensures p !in free' && p !in sp'.NodePages() {
      assert p !in ToSet(free') + sp'.NodePages();
    }
  }

  lemma FreeShrinks(k: Kmem, free: seq<nat>, sp: Space, sp': Space)
    requires Tree(k, sp') && Conserved(free, sp, k.free, sp') && sp.NodePages() <= sp'.NodePages()
    ensures ToSet(k.free) <= ToSet(free)
  {
    hide WF;
    hide Space.NodePages;
    forall p | p in ToSet(k.free) ensures p in ToSet(free) {
      assert p !in sp'.NodePages();
      assert p in ToSet(k.free) + sp'.NodePages();
    }
  }

  lemma FreshMapped(k: Kmem, free: seq<nat>, sp: Space, v: nat, l: Leaf)
    requires Freeable(k, free, sp, 0, USERTOP) && v !in sp.leaf && v < USERTOP
    requires k.Managed(l.frame) && l.frame !in free && l.frame !in Owned(sp)
    ensures var sp' := sp.(leaf := sp.leaf[v := l]);
      Freeable(k, free, sp', 0, USERTOP) && Owned(sp') == Owned(sp) + {l.frame}
  {
    FramesInsert(sp.leaf, v, l, 0, USERTOP);
    forall u | u in sp.leaf && u < USERTOP ensures sp.leaf[u].frame != l.frame {
      assert sp.leaf[u].frame in Frames(sp.leaf, 0, USERTOP);
    }
  }

  lemma OwnsManaged(k: Kmem, sp: Space, f: nat)
    requires Owns(k, sp) && k.Managed(f)
    ensures 0 < f < MAXPPN && f in k.mem
  {
  }

  // ----- uvmdealloc -----

  lemma NothingWithout(leaf: map<nat, Leaf>, lo: nat, hi: nat)
    requires hi <= lo
    ensures Without(leaf, lo, hi) == leaf
  {
  }

  lemma PagesHold(sz: nat)
    ensures sz <= Pages(sz) * 4096 < sz + 4096
    ensures sz <= USYSCALL ==> Pages(sz) <= USERTOP
  {
  }

  lemma PagesMonotone(a: nat, b: nat)
    requires a <= b
    ensures Pages(a) <= Pages(b)
  {
  }

  /** Unmapping user pages moves their frames from the address space to the free list. */
  lemma Unmapped(k: Kmem, free: seq<nat>, sp: Space, lo: nat, hi: nat, free': seq<nat>, sp': Space)
    requires Freeable(k, free, sp, 0, USERTOP) && lo <= hi <= USERTOP
    requires sp'.nodes == sp.nodes && sp'.leaf == Without(sp.leaf, lo, hi)
    requires ToSet(free') == ToSet(free) + Frames(sp.leaf, lo, hi)
    ensures Freeable(k, free', sp', 0, USERTOP) && Balanced(free, sp, free', sp')
  {
    FramesSplit(sp.leaf, lo, hi, USERTOP);
    forall v | v in sp'.leaf && v < USERTOP
      ensures sp'.leaf[v] == sp.leaf[v] && sp.leaf[v].frame !in free'
    {
      assert sp.leaf[v].frame !in Frames(sp.leaf, lo, hi);
      assert sp.leaf[v].frame !in ToSet(free');
    }
  }

  /** uvmdealloc: shrink from `oldsz` to `newsz` bytes; a larger `newsz` changes nothing. */
  method UvmDealloc(k: Kmem, root: nat, oldsz: nat, newsz: nat, ghost sp: Space) returns (r: nat, ghost sp': Space)
    requires Owns(k, sp) && root == sp.RootPage() * 4096
    requires newsz < oldsz ==> oldsz <= USYSCALL && forall v: nat | Pages(newsz) <= v < Pages(oldsz) :: v in sp.leaf
    modifies k
    ensures r == if newsz >= oldsz then oldsz else newsz
    ensures Owns(k, sp') && sp'.nodes == sp.nodes
    ensures sp'.leaf == if newsz >= oldsz then sp.leaf else Without(sp.leaf, Pages(newsz), Pages(oldsz))
    ensures Balanced(old(k.free), sp, k.free, sp')
    ensures |k.free| == |old(k.free)| + if newsz >= oldsz then 0 else Pages(oldsz) - Pages(newsz)
    ensures newsz < oldsz ==> Same(old(k.mem), k.mem, sp.NodePages() + Frames(sp.leaf, Pages(newsz), Pages(oldsz)))
    ensures newsz >= oldsz ==> k.mem == old(k.mem) && k.free == old(k.free)
  {
    hide Tree;
    hide Frames;
    hide Without;
    hide Freeable;
    hide ToSet;
    sp' := sp;
    if newsz >= oldsz {
      return oldsz, sp;
    }
    RoundUpPages(oldsz);
    RoundUpPages(newsz);
    PagesMonotone(newsz, oldsz);
    ghost var lo, hi := Pages(newsz), Pages(oldsz);
    NothingWithout(sp.leaf, lo, lo);
    if PgRoundUp(newsz) < PgRoundUp(oldsz) {
      var npages := (PgRoundUp(oldsz) - PgRoundUp(newsz)) / 4096;
      FreeablePart(k, k.free, sp, lo, hi);
      var start := PgRoundUp(newsz);
      assert start == lo * 4096 && npages == hi - lo && start / 4096 == lo && start % 4096 == 0;
      sp' := UvmUnmap(k, root, start, npages, true, sp);
      Unmapped(k, old(k.free), sp, lo, hi, k.free, sp');
      FramesSplit(sp.leaf, lo, hi, USERTOP);
    }
    r := newsz;
  }

  lemma FreeablePart(k: Kmem, free: seq<nat>, sp: Space, lo: nat, hi: nat)
    requires Freeable(k, free, sp, 0, USERTOP) && hi <= USERTOP
    ensures Freeable(k, free, sp, lo, hi)
  {
  }

  // ----- uvmalloc -----

  /** `R | U | xperm`, where xperm is some of W and X. */
  predicate Xperm(xperm: nat) {
    xperm == 0 || xperm == PTE_W || xperm == PTE_X || xperm == PTE_W + PTE_X
  }

  function UserFlags(xperm: nat): nat {
    PTE_V + PTE_R + PTE_U + xperm
  }

  lemma UserPerm(xperm: nat)
    requires Xperm(xperm)
    ensures LeafPerm(PTE_R + PTE_U + xperm) && SetV(PTE_R + PTE_U + xperm) == UserFlags(xperm)
  {
  }

  /** `sp'` is `sp` with fresh zeroed pages at [lo, v), all with the flags `flags`. */
  ghost predicate Grown(m: Mem, sp: Space, sp': Space, lo: nat, v: nat, flags: nat) {
    && Without(sp'.leaf, lo, v) == sp.leaf
    && forall u: nat | lo <= u < v ::
         && u in sp'.leaf && sp'.leaf[u].flags == flags
         && sp'.leaf[u].frame in m && m[sp'.leaf[u].frame] == Fill(0)
  }

  predicate Readable(m: Mem, leaf: map<nat, Leaf>, v: nat) {
    v in leaf && U(leaf[v].flags) && leaf[v].frame in m
  }

  predicate Writable(m: Mem, leaf: map<nat, Leaf>, v: nat) {
    Readable(m, leaf, v) && W(leaf[v].flags)
  }

  /** What the flags of pages that uvmalloc adds mean, by bit number. */
  lemma GrownAccess(m: Mem, sp: Space, sp': Space, lo: nat, hi: nat, xperm: nat)
    requires Grown(m, sp, sp', lo, hi, UserFlags(xperm)) && Xperm(xperm)
    ensures forall u: nat | lo <= u < hi ::
      && Readable(m, sp'.leaf, u) && (Writable(m, sp'.leaf, u) <==> xperm / 4 % 2 == 1)
      && var f := sp'.leaf[u].flags;
         f % 2 == 1 && f / 2 % 2 == 1 && f / 4 % 2 == xperm / 4 % 2 && f / 8 % 2 == xperm / 8 % 2 && f / 16 % 2 == 1
  {
    FlagBits(UserFlags(xperm));
  }

  /** The free pages that mapping fresh frames at [lo, hi) takes: a frame for each page, and the missing nodes. */
  ghost function Need(sp: Space, lo: nat, hi: nat): int {
    hi - lo + Missing(sp, lo, hi)
  }

  lemma NeedMonotone(sp: Space, lo: nat, v: nat, hi: nat)
    requires v <= hi
    ensures Need(sp, lo, v) <= Need(sp, lo, hi)
  {
    MissingMonotone(sp, lo, v, hi);
  }

  /** `sp'` has the tables for [lo, v) beside those of `sp`, and each page and each new table cost one free page. */
  ghost predicate Counted(free0: seq<nat>, sp: Space, free: seq<nat>, sp': Space, lo: nat, v: nat) {
    && Ids(sp') == Ids(sp) + TableIds(lo, v)
    && |free| + (v - lo) + |Ids(sp')| == |free0| + |Ids(sp)|
  }

  lemma CountedStart(free: seq<nat>, sp: Space, lo: nat)
    ensures Counted(free, sp, free, sp, lo, lo)
  {
    TableIdsStep(lo, lo);
  }

  lemma CountedStep(free0: seq<nat>, sp: Space, free1: seq<nat>, sp1: Space, free: seq<nat>, sp': Space, lo: nat, v: nat)
    requires lo <= v && Counted(free0, sp, free1, sp1, lo, v)
    requires Ids(sp') == Ids(sp1) + TableIds(v, v + 1) && |free| + 1 + |Ids(sp')| == |free1| + |Ids(sp1)|
    ensures Counted(free0, sp, free, sp', lo, v + 1)
  {
    hide Ids;
    TableIdsStep(lo, v);
    hide TableIds;
    hide PathIds;
  }

  /** What is left on the free list is what the pages so far did not need. */
  lemma CountedNeed(free0: seq<nat>, sp: Space, free: seq<nat>, sp': Space, lo: nat, v: nat)
    requires lo <= v && Counted(free0, sp, free, sp', lo, v)
    ensures |free| == |free0| - Need(sp, lo, v)
    ensures Need(sp, lo, v + 1) == Need(sp, lo, v) + 1 + Missing(sp', v, v + 1)
  {
    MissingStep(sp, sp', lo, v);
  }

  /** One turn of uvmalloc: a zeroed frame for the page at `a`; nothing is kept on failure. */
  method AllocOne(k: Kmem, root: nat, a: nat, xperm: nat, ghost sp: Space) returns (ok: bool, ghost sp': Space)
    requires Owns(k, sp) && root == sp.RootPage() * 4096
    requires a % 4096 == 0 && (k.free != [] ==> a / 4096 < USERTOP && a / 4096 !in sp.leaf)
    requires Xperm(xperm)
    modifies k
    ensures Owns(k, sp') && sp'.RootPage() == sp.RootPage()
    ensures Balanced(old(k.free), sp, k.free, sp')
    ensures Same(old(k.mem), k.mem, sp.NodePages() + ToSet(old(k.free)))
    ensures sp.NodePages() <= sp'.NodePages()
    ensures ToSet(k.free) + sp'.NodePages() <= ToSet(old(k.free)) + sp.NodePages() && ToSet(k.free) <= ToSet(old(k.free))
    ensures ok ==> |k.free| < |old(k.free)|
    ensures HasTable(sp, a / 4096) && ok ==> sp'.nodes == sp.nodes && |k.free| + 1 == |old(k.free)|
    ensures ok <==> 1 + Missing(sp, a / 4096, a / 4096 + 1) <= |old(k.free)|
    ensures ok ==> Ids(sp') == Ids(sp) + TableIds(a / 4096, a / 4096 + 1) && |k.free| + 1 + |Ids(sp')| == |old(k.free)| + |Ids(sp)|
    ensures |k.free| <= |old(k.free)|
    ensures !ok ==> sp'.leaf == sp.leaf
    ensures ok ==>
      && old(k.free) != [] && old(k.free)[0] in ToSet(old(k.free))
      && sp'.leaf == sp.leaf[a / 4096 := Leaf(old(k.free)[0], UserFlags(xperm))]
      && old(k.free)[0] in k.mem && k.mem[old(k.free)[0]] == Fill(0)
  {
    hide Tree;
    hide Frames;
    hide Freeable;
    hide ToSet;
    hide LeafPerm;
    hide SetV;
    hide Owned;
    hide Ids;
    hide TableIds;
    hide Missing;
    var mem := KallocBeside(k, sp);
    if mem == 0 {
      return false, sp;
    }
    UserPerm(xperm);
    ok, sp' := MapFilled(k, root, a, mem, Fill(0), PTE_R + PTE_U + xperm, sp);
  }

  /** Fill a newly allocated page, map it at `a`, and give it back when mappages fails. */
  method MapFilled(k: Kmem, root: nat, a: nat, mem: nat, page: Page, perm: nat, ghost sp: Space) returns (ok: bool, ghost sp': Space)
    requires Owns(k, sp) && root == sp.RootPage() * 4096
    requires a % 4096 == 0 && a / 4096 < USERTOP && a / 4096 !in sp.leaf
    requires mem % 4096 == 0 && k.Managed(mem / 4096) && mem / 4096 !in k.free && mem / 4096 !in Owned(sp)
    requires LeafPerm(perm)
    modifies k
    ensures Owns(k, sp') && sp'.RootPage() == sp.RootPage()
    ensures ToSet(k.free) + Owned(sp') == ToSet(old(k.free)) + {mem / 4096} + Owned(sp)
    ensures Same(old(k.mem), k.mem, sp.NodePages() + ToSet(old(k.free)) + {mem / 4096})
    ensures sp.NodePages() <= sp'.NodePages()
    ensures ToSet(k.free) + sp'.NodePages() <= ToSet(old(k.free)) + {mem / 4096} + sp.NodePages()
    ensures ToSet(k.free) <= ToSet(old(k.free)) + {mem / 4096}
    ensures |k.free| <= |old(k.free)| + if ok then 0 else 1
    ensures HasTable(sp, a / 4096) ==> ok && sp'.nodes == sp.nodes && |k.free| == |old(k.free)|
    ensures ok <==> Missing(sp, a / 4096, a / 4096 + 1) <= |old(k.free)|
    ensures ok ==> Ids(sp') == Ids(sp) + TableIds(a / 4096, a / 4096 + 1) && |k.free| + |Ids(sp')| == |old(k.free)| + |Ids(sp)|
    ensures sp'.leaf == if ok then sp.leaf[a / 4096 := Leaf(mem / 4096, SetV(perm))] else sp.leaf
    ensures ok ==> mem / 4096 in k.mem && k.mem[mem / 4096] == page
  {
    hide Tree;
    hide Frames;
    hide Freeable;
    hide ToSet;
    hide LeafPerm;
    hide SetV;
    hide Owned;
    hide Ids;
    hide TableIds;
    hide Missing;
    NotOwned(sp, mem / 4096);
    SetPageBeside(k, mem / 4096, page, sp);
    var r;
    r, sp' := MapFresh(k, root, a, mem, perm, sp);
    if r != 0 {
      KfreeBeside(k, mem, sp');
    }
    ok := r == 0;
  }

  /** kalloc, seen by the owner of an address space: the new page is nobody's. */
  method KallocBeside(k: Kmem, ghost sp: Space) returns (pa: nat)
    requires Owns(k, sp)
    modifies k
    ensures Owns(k, sp)
    ensures pa == 0 <==> old(k.free) == []
    ensures pa == 0 ==> k.free == old(k.free) && k.mem == old(k.mem)
    ensures pa != 0 ==>
      && pa % 4096 == 0 && k.Managed(pa / 4096)
      && old(k.free) == [pa / 4096] + k.free
      && pa / 4096 in k.mem && pa / 4096 !in k.free && pa / 4096 !in Owned(sp)
      && ToSet(old(k.free)) == ToSet(k.free) + {pa / 4096}
      && Same(old(k.mem), k.mem, {pa / 4096})
  {
    hide WF;
    hide Freeable;
    hide Frames;
    ghost var m: Mem := k.mem;
    OwnedPages(k, sp);
    pa := k.Kalloc();
    if pa != 0 {
      assert old(k.free) == [pa / 4096] + k.free;
      PushSet(k.free, pa / 4096);
      OwnsFrame(k, m, old(k.free), sp);
    }
  }

  /** Filling a page outside the tree: memset or memmove of a whole page. */
  method SetPageBeside(k: Kmem, p: nat, page: Page, ghost sp: Space)
    requires Owns(k, sp)
    requires k.Managed(p) && p !in k.free && p !in sp.NodePages()
    modifies k`mem
    ensures Owns(k, sp)
    ensures p in old(k.mem) && k.mem == old(k.mem)[p := page]
  {
    hide WF;
    hide Freeable;
    ghost var m: Mem := k.mem;
    OwnedPages(k, sp);
    ManagedInMem(k, p);
    k.SetPage(p, page);
    OwnsFrame(k, m, k.free, sp);
  }

  /** kfree of a page that is not part of the address space. */
  method KfreeBeside(k: Kmem, pa: nat, ghost sp: Space)
    requires Owns(k, sp)
    requires pa % 4096 == 0 && k.Managed(pa / 4096) && pa / 4096 !in k.free && pa / 4096 !in Owned(sp)
    modifies k
    ensures Owns(k, sp)
    ensures k.free == [pa / 4096] + old(k.free)
    ensures ToSet(k.free) == ToSet(old(k.free)) + {pa / 4096}
    ensures Same(old(k.mem), k.mem, {pa / 4096})
  {
    hide WF;
    hide Freeable;
    ghost var m: Mem := k.mem;
    OwnedPages(k, sp);
    k.Kfree(pa);
    PushSet(old(k.free), pa / 4096);
    OwnsFrame(k, m, old(k.free), sp);
  }

  lemma GrownStep(m: Mem, m': Mem, sp: Space, s1: Space, s2: Space, lo: nat, v: nat, f: nat, flags: nat)
    requires Grown(m, sp, s1, lo, v, flags) && lo <= v && v !in s1.leaf
    requires s2.leaf == s1.leaf[v := Leaf(f, flags)]
    requires f in m' && m'[f] == Fill(0)
    requires forall u | u in s1.leaf && lo <= u < v :: s1.leaf[u].frame in m ==> s1.leaf[u].frame in m' && m'[s1.leaf[u].frame] == m[s1.leaf[u].frame]
    ensures Grown(m', sp, s2, lo, v + 1, flags)
  {
    hide Fill;
    assert Without(s2.leaf, lo, v + 1) == Without(s1.leaf, lo, v);
  }

  lemma FramesBelow(leaf: map<nat, Leaf>, v: nat, l: Leaf, lo: nat)
    ensures Frames(leaf[v := l], lo, v) == Frames(leaf, lo, v)
  {
    var leaf' := leaf[v := l];
    forall f ensures f in Frames(leaf', lo, v) <==> f in Frames(leaf, lo, v) {
      if f in Frames(leaf, lo, v) {
        var u :| u in leaf && lo <= u < v && leaf[u].frame == f;
        assert leaf'[u] == leaf[u];
      }
    }
  }

  /** The frames of an address space are outside its tree and the free list. */
  lemma FrameBeside(k: Kmem, sp: Space, v: nat)
    requires Owns(k, sp) && v in sp.leaf && v < USERTOP
    ensures sp.leaf[v].frame !in sp.NodePages() + ToSet(k.free)
    ensures sp.leaf[v].frame in Owned(sp) && sp.leaf[v].frame in k.mem
  {
    OwnedPages(k, sp);
    assert sp.leaf[v].frame in Frames(sp.leaf, 0, USERTOP);
  }

  /** What holds after growing `sp` to `sp'` with fresh pages at [lo, v), starting from memory `m0` and free list `free0`. */
  ghost predicate Growing(m0: Mem, free0: seq<nat>, sp: Space, m: Mem, free: seq<nat>, sp': Space, lo: nat, v: nat, flags: nat) {
    && sp'.RootPage() == sp.RootPage()
    && Balanced(free0, sp, free, sp')
    && Same(m0, m, sp.NodePages() + ToSet(free0))
    && ToSet(free) + sp'.NodePages() <= ToSet(free0) + sp.NodePages() && ToSet(free) <= ToSet(free0)
    && Frames(sp'.leaf, lo, v) <= ToSet(free0)
    && |free| + (v - lo) <= |free0|
    && (lo < v ==> v <= USERTOP)
    && Grown(m, sp, sp', lo, v, flags)
    && (TablesAt(sp, lo, v) ==> sp'.nodes == sp.nodes && |free| + (v - lo) == |free0|)
    && Counted(free0, sp, free, sp', lo, v)
  }

  lemma GrowingStart(m: Mem, free: seq<nat>, sp: Space, lo: nat, flags: nat)
    ensures Growing(m, free, sp, m, free, sp, lo, lo, flags)
  {
    NothingWithout(sp.leaf, lo, lo);
    EmptyRange(sp.leaf, lo);
    CountedStart(free, sp, lo);
  }

  /** One turn of the loop of uvmalloc. */
  method GrowOne(k: Kmem, root: nat, a: nat, xperm: nat, ghost m0: Mem, ghost free0: seq<nat>, ghost sp: Space, ghost sp1: Space, ghost lo: nat, ghost v: nat)
    returns (ok: bool, ghost sp': Space)
    requires Owns(k, sp1) && root == sp1.RootPage() * 4096 && Xperm(xperm)
    requires a == v * 4096 && lo <= v
    requires k.free != [] ==> v < USERTOP && v !in sp1.leaf
    requires Growing(m0, free0, sp, k.mem, k.free, sp1, lo, v, UserFlags(xperm))
    modifies k
    ensures Owns(k, sp')
    ensures ok ==> Growing(m0, free0, sp, k.mem, k.free, sp', lo, v + 1, UserFlags(xperm))
    ensures !ok ==> sp'.leaf == sp1.leaf && sp'.RootPage() == sp.RootPage() && Balanced(free0, sp, k.free, sp')
    ensures !ok ==> ToSet(k.free) + sp'.NodePages() <= ToSet(free0) + sp.NodePages()
    ensures !ok ==> Same(m0, k.mem, sp.NodePages() + ToSet(free0))
    ensures !ok ==> |free0| < Need(sp, lo, v + 1)
  {
    hide Tree;
    hide Frames;
    hide Freeable;
    hide ToSet;
    hide Owned;
    hide Fill;
    hide Ids;
    hide TableIds;
    hide Missing;
    hide Counted;
    assert a / 4096 == v && a % 4096 == 0;
    ghost var m: Mem, free := k.mem, k.free;
    CountedNeed(free0, sp, free, sp1, lo, v);
    forall u | u in sp1.leaf && lo <= u < v
      ensures sp1.leaf[u].frame !in sp1.NodePages() + ToSet(free)
    {
      FrameBeside(k, sp1, u);
    }
    ok, sp' := AllocOne(k, root, a, xperm, sp1);
    assert TablesAt(sp, lo, v + 1) ==> TablesAt(sp, lo, v) && HasTable(sp, v);
    if ok {
      GrownStep(m, k.mem, sp, sp1, sp', lo, v, free[0], UserFlags(xperm));
      RangeStep(sp'.leaf, lo, v);
      FramesBelow(sp1.leaf, v, sp'.leaf[v], lo);
      CountedStep(free0, sp, free, sp1, k.free, sp', lo, v);
    }
  }

  /** The pages of [lo, hi) that `n` free pages can reach are unmapped and below the fixed ones. */
  ghost predicate Open(sp: Space, n: nat, lo: nat, hi: nat) {
    forall v: nat | lo <= v < hi && v < lo + n :: v < USERTOP && v !in sp.leaf
  }

  /**
   * uvmalloc: grow from `oldsz` to `newsz` bytes.  The pages it may reach, at most one per free
   * page, must be unmapped and below the fixed high pages.  It succeeds exactly when there are as
   * many free pages as it needs.  On failure the leaf map is restored; new tree nodes may stay, and
   * every other page is accounted for.
   */
  method UvmAlloc(k: Kmem, root: nat, oldsz: nat, newsz: nat, xperm: nat, ghost sp: Space)
    returns (r: nat, ghost ok: bool, ghost sp': Space)
    requires Owns(k, sp) && root == sp.RootPage() * 4096
    requires oldsz <= USYSCALL && newsz < 0x1_0000_0000_0000 && Xperm(xperm)
    requires Open(sp, |k.free|, Pages(oldsz), Pages(newsz))
    modifies k
    ensures Owns(k, sp') && sp'.RootPage() == sp.RootPage()
    ensures Balanced(old(k.free), sp, k.free, sp')
    ensures Same(old(k.mem), k.mem, sp.NodePages() + ToSet(old(k.free)))
    ensures r == if !ok then 0 else if newsz < oldsz then oldsz else newsz
    ensures !ok || newsz < oldsz ==> sp'.leaf == sp.leaf
    ensures !ok ==> Pages(oldsz) < Pages(newsz)
    ensures ok && oldsz <= newsz ==> Grown(k.mem, sp, sp', Pages(oldsz), Pages(newsz), UserFlags(xperm))
    ensures ok && oldsz <= newsz ==> forall u: nat | Pages(oldsz) <= u < Pages(newsz) ::
      && Readable(k.mem, sp'.leaf, u) && (Writable(k.mem, sp'.leaf, u) <==> xperm / 4 % 2 == 1)
      && var f := sp'.leaf[u].flags;
         f % 2 == 1 && f / 2 % 2 == 1 && f / 4 % 2 == xperm / 4 % 2 && f / 8 % 2 == xperm / 8 % 2 && f / 16 % 2 == 1
    ensures ok && Pages(oldsz) < Pages(newsz) ==> Pages(newsz) <= USERTOP
    ensures ok <==> newsz < oldsz || Need(sp, Pages(oldsz), Pages(newsz)) <= |old(k.free)|
    ensures ok && oldsz <= newsz ==> |k.free| == |old(k.free)| - Need(sp, Pages(oldsz), Pages(newsz))
    ensures ok && oldsz <= newsz && TablesAt(sp, Pages(oldsz), Pages(newsz)) ==> sp'.nodes == sp.nodes
  {
    hide Owns;
    hide ToSet;
    hide Owned;
    hide Open;
    hide Growing;
    hide Grown;
    hide Pages;
    hide PgRoundUp;
    hide TablesAt;
    hide Missing;
    hide TableIds;
    hide Ids;
    if newsz < oldsz {
      PagesMonotone(newsz, oldsz);
      return oldsz, true, sp;
    }
    RoundUpPages(oldsz);
    PagesHold(newsz);
    PagesMonotone(oldsz, newsz);
    var grown;
    grown, sp' := GrowPages(k, root, PgRoundUp(oldsz), newsz, xperm, Pages(oldsz), Pages(newsz), sp);
    ok := grown;
    if !grown {
      return 0, false, sp';
    }
    GrowingFacts(old(k.mem), old(k.free), sp, k.mem, k.free, sp', Pages(oldsz), Pages(newsz), UserFlags(xperm));
    GrownAccess(k.mem, sp, sp', Pages(oldsz), Pages(newsz), xperm);
    r := newsz;
  }

  /** The loop of uvmalloc, with its error path. */
  method GrowPages(k: Kmem, root: nat, start: nat, newsz: nat, xperm: nat, ghost lo: nat, ghost hi: nat, ghost sp: Space)
    returns (ok: bool, ghost sp': Space)
    requires Owns(k, sp) && root == sp.RootPage() * 4096 && Xperm(xperm)
    requires start == lo * 4096 && lo <= hi && newsz <= hi * 4096 < newsz + 4096
    requires Open(sp, |k.free|, lo, hi)
    modifies k
    ensures Owns(k, sp')
    ensures ok ==> Growing(old(k.mem), old(k.free), sp, k.mem, k.free, sp', lo, hi, UserFlags(xperm))
    ensures !ok ==> lo < hi && |old(k.free)| < Need(sp, lo, hi)
    ensures !ok ==> sp'.leaf == sp.leaf && sp'.RootPage() == sp.RootPage() && Balanced(old(k.free), sp, k.free, sp')
    ensures !ok ==> Same(old(k.mem), k.mem, sp.NodePages() + ToSet(old(k.free)))
  {
    hide Owns;
    hide ToSet;
    hide Owned;
    hide Growing;
    hide Grown;
    hide Need;
    hide Without;
    hide Balanced;
    hide Same;
    hide TablesAt;
    ghost var m0: Mem, free0 := k.mem, k.free;
    GrowingStart(k.mem, k.free, sp, lo, UserFlags(xperm));
    sp' := sp;
    var a := start;
    ghost var v := lo;
    while a < newsz
      invariant a == v * 4096 && lo <= v <= hi
      invariant Owns(k, sp')
      invariant Growing(m0, free0, sp, k.mem, k.free, sp', lo, v, UserFlags(xperm))
      decreases hi - v
    {
      GrowingFacts(m0, free0, sp, k.mem, k.free, sp', lo, v, UserFlags(xperm));
      ok, sp' := GrowOne(k, root, a, xperm, m0, free0, sp, sp', lo, v);
      if !ok {
        NeedMonotone(sp, lo, v + 1, hi);
        sp' := GrowFailed(k, root, a, start, m0, free0, sp, sp', lo, v);
        return;
      }
      a := a + 4096;
      v := v + 1;
    }
    assert v == hi;
    ok := true;
  }

  /** The error path as the loop of uvmalloc takes it. */
  method GrowFailed(k: Kmem, root: nat, a: nat, start: nat, ghost m0: Mem, ghost free0: seq<nat>, ghost sp: Space, ghost sp1: Space, ghost lo: nat, ghost v: nat)
    returns (ghost sp': Space)
    requires Owns(k, sp1) && root == sp1.RootPage() * 4096 && sp1.RootPage() == sp.RootPage()
    requires a == v * 4096 && start == lo * 4096 && lo <= v && (lo < v ==> v <= USERTOP)
    requires Without(sp1.leaf, lo, v) == sp.leaf && Frames(sp1.leaf, lo, v) <= ToSet(free0)
    requires forall u: nat | lo <= u < v :: u in sp1.leaf
    requires Balanced(free0, sp, k.free, sp1) && ToSet(k.free) + sp1.NodePages() <= ToSet(free0) + sp.NodePages()
    requires Same(m0, k.mem, sp.NodePages() + ToSet(free0))
    modifies k
    ensures Owns(k, sp') && sp'.leaf == sp.leaf && sp'.RootPage() == sp.RootPage()
    ensures Balanced(free0, sp, k.free, sp') && Same(m0, k.mem, sp.NodePages() + ToSet(free0))
  {
    hide Owns;
    hide ToSet;
    hide Owned;
    hide Frames;
    hide Without;
    assert a / 4096 == v && start / 4096 == lo && a % 4096 == 0 && start % 4096 == 0;
    sp' := Undo(k, root, a, start, sp1);
  }

  lemma GrowingFacts(m0: Mem, free0: seq<nat>, sp: Space, m: Mem, free: seq<nat>, sp': Space, lo: nat, v: nat, flags: nat)
    requires lo <= v && Growing(m0, free0, sp, m, free, sp', lo, v, flags)
    ensures sp'.RootPage() == sp.RootPage() && Balanced(free0, sp, free, sp')
    ensures Same(m0, m, sp.NodePages() + ToSet(free0)) && Grown(m, sp, sp', lo, v, flags)
    ensures Frames(sp'.leaf, lo, v) <= ToSet(free0) && ToSet(free) + sp'.NodePages() <= ToSet(free0) + sp.NodePages()
    ensures |free| + (v - lo) <= |free0| && (lo < v ==> v <= USERTOP)
    ensures TablesAt(sp, lo, v) ==> sp'.nodes == sp.nodes && |free| + (v - lo) == |free0|
    ensures |free| == |free0| - Need(sp, lo, v)
    ensures v in sp'.leaf <==> v in sp.leaf
    ensures Without(sp'.leaf, lo, v) == sp.leaf && forall u: nat | lo <= u < v :: u in sp'.leaf
  {
    WithoutAt(sp'.leaf, lo, v, v);
    CountedNeed(free0, sp, free, sp', lo, v);
  }

  /** The error path of uvmalloc: uvmdealloc(pagetable, a, oldsz) with a rounded `oldsz`. */
  method Undo(k: Kmem, root: nat, a: nat, start: nat, ghost sp: Space) returns (ghost sp': Space)
    requires Owns(k, sp) && root == sp.RootPage() * 4096
    requires a % 4096 == 0 && start % 4096 == 0 && start <= a && (start < a ==> a <= USYSCALL)
    requires forall v: nat | start / 4096 <= v < a / 4096 :: v in sp.leaf
    modifies k
    ensures Owns(k, sp') && sp'.nodes == sp.nodes && Balanced(old(k.free), sp, k.free, sp')
    ensures sp'.leaf == Without(sp.leaf, start / 4096, a / 4096)
    ensures Same(old(k.mem), k.mem, sp.NodePages() + Frames(sp.leaf, start / 4096, a / 4096))
  {
    hide Owns;
    hide Frames;
    hide Owned;
    hide ToSet;
    NothingWithout(sp.leaf, start / 4096, start / 4096);
    assert Pages(a) == a / 4096 && Pages(start) == start / 4096;
    var sz;
    sz, sp' := UvmDealloc(k, root, a, start, sp);
  }
}
