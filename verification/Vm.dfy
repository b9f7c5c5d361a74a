/** lab page tables/kernel/vm.c: building, copying and tearing down user page tables. */
module Vm {
  import opened Riscv
  import opened PhysMem
  import opened Kalloc
  import opened PageTable

  /** `sp` is laid out in memory `m`, in managed pages that are not free. */
  ghost predicate TreeAt(k: Kmem, m: Mem, free: seq<nat>, sp: Space) {
    WF(m, sp) && forall p | p in sp.NodePages() :: k.Managed(p) && p !in free
  }

  ghost predicate Tree(k: Kmem, sp: Space)
    reads k
  {
    k.Valid() && TreeAt(k, k.mem, k.free, sp)
  }

  /** The level-0 table that serves page number `u` exists. */
  predicate HasTable(sp: Space, u: nat) {
    NodeId(0, u / 512) in sp.nodes
  }

  ghost predicate TablesAt(sp: Space, lo: nat, hi: int) {
    forall u: nat | lo <= u < hi :: HasTable(sp, u)
  }

  lemma NodeInMem(k: Kmem, sp: Space, id: NodeId)
    requires Tree(k, sp) && id in sp.nodes
    ensures var p := sp.nodes[id]; 0 < p && p in sp.NodePages() && p in k.mem && k.Managed(p) && p !in k.free
  {
    assert sp.nodes[id] in sp.NodePages();
  }

  /** What the entry that `walk` inspects at `level` says about the next node. */
  lemma PathEntry(k: Kmem, sp: Space, level: nat, va: nat)
    requires Tree(k, sp) && va < MAXVA && 0 < level <= 2 && PathId(level, va / 4096) in sp.nodes
    ensures var page := sp.nodes[PathId(level, va / 4096)];
      var next := PathId(level - 1, va / 4096);
      && page in k.mem
      && next == sp.Child(PathId(level, va / 4096), PX(level, va))
      && var pte := Word(k.mem[page], PX(level, va));
      && (V(pte) <==> next in sp.nodes)
      && (next in sp.nodes ==> Pte2Pa(pte) == sp.nodes[next] * 4096)
  {
    hide Word;
    hide PX;
    hide Space.Shape;
    var id := PathId(level, va / 4096);
    NodeInMem(k, sp, id);
    assert Holds(k.mem, sp, id);
    PathStep(sp, level, va);
    if sp.Child(id, PX(level, va)) in sp.nodes {
      EncodedNode(sp.nodes[sp.Child(id, PX(level, va))]);
    }
  }

  /** The branch of `walk` that allocates, clears and links a missing node. */
  method AllocNode(k: Kmem, page: nat, ghost level: nat, va: nat, i: nat, ghost sp: Space) returns (child: nat, ghost sp': Space)
    requires Tree(k, sp) && va < MAXVA && 0 < level <= 2
    requires PathId(level, va / 4096) in sp.nodes && page == sp.nodes[PathId(level, va / 4096)]
    requires i == PX(level, va)
    requires PathId(level - 1, va / 4096) !in sp.nodes
    modifies k
    ensures Tree(k, sp') && sp'.leaf == sp.leaf
    ensures child == 0 ==> old(k.free) == [] && sp' == sp && k.mem == old(k.mem) && k.free == []
    ensures child != 0 ==>
      && child % 4096 == 0
      && sp'.nodes == sp.nodes[PathId(level - 1, va / 4096) := child / 4096]
    ensures Conserved(old(k.free), sp, k.free, sp')
    ensures sp.NodePages() <= sp'.NodePages() && Same(old(k.mem), k.mem, sp'.NodePages())
  {
    hide Word;
    hide SetWord;
    hide Fill;
    hide PX;
    hide WF;
    hide Chain;
    hide Conserved;
    ConservedRefl(k.free, sp);
    ghost var m: Mem := k.mem;
    ghost var id := PathId(level, va / 4096);
    NodeInMem(k, sp, id);
    PathEntry(k, sp, level, va);
    child := k.Kalloc();
    if child == 0 {
      sp' := sp;
      return;
    }
    ghost var c: nat := old(k.free)[0];
    assert k.Managed(c);
    assert c !in k.free by {
      ChainHead(m, old(k.freelist), old(k.free));
    }
    WordAddrParts(c, 0);
    WordAddrParts(page, i);
    k.Memset(child, 0);
    k.Store(WordAddr(page, i), Pa2Pte(child) + PTE_V);
    ghost var m1: Mem := m[c := Fill(0)];
    assert k.mem == m1[page := SetWord(m[page], i, c * 1024 + PTE_V)];
    AddNode(m, sp, id, i, c, k.mem);
    sp' := sp.(nodes := sp.nodes[PathId(level - 1, va / 4096) := c]);
    NodeAdded(old(k.free), sp, PathId(level - 1, va / 4096));
  }

  // ----- the nodes that page numbers need -----

  ghost function Ids(sp: Space): set<NodeId> { sp.nodes.Keys }

  /** The nodes on the path of page number `v`, below the root. */
  ghost function PathIds(v: nat): set<NodeId> {
    {PathId(1, v), PathId(0, v)}
  }

  /** The nodes on the paths of the page numbers [lo, hi), below the root. */
  ghost function TableIds(lo: nat, hi: nat): set<NodeId> {
    (set u: nat | lo <= u < hi :: PathId(1, u)) + (set u: nat | lo <= u < hi :: PathId(0, u))
  }

  /** How many nodes are missing to map the page numbers [lo, hi). */
  ghost function Missing(sp: Space, lo: nat, hi: nat): nat {
    |TableIds(lo, hi) - Ids(sp)|
  }

  lemma TableIdsStep(lo: nat, v: nat)
    requires lo <= v
    ensures TableIds(lo, v + 1) == TableIds(lo, v) + PathIds(v)
    ensures TableIds(lo, lo) == {} && TableIds(v, v + 1) == PathIds(v)
  {
    hide PathId;
    assert PathId(1, v) in TableIds(lo, v + 1) && PathId(0, v) in TableIds(lo, v + 1);
    forall n | n in TableIds(lo, v) ensures n in TableIds(lo, v + 1) {
      var u: nat :| lo <= u < v && (n == PathId(1, u) || n == PathId(0, u));
    }
  }

  lemma TableIdsMonotone(lo: nat, v: nat, hi: nat)
    requires v <= hi
    ensures TableIds(lo, v) <= TableIds(lo, hi)
  {
    hide PathId;
  }

  lemma UnionSize(a: set<NodeId>, b: set<NodeId>)
    ensures |a + b| == |a| + |b - a|
  {
    assert a + b == a + (b - a);
  }

  lemma SmallerIds(a: set<NodeId>, b: set<NodeId>)
    requires a <= b
    ensures |a| <= |b| && (a != b ==> |a| < |b|)
  {
    assert b == a + (b - a) && |b| == |a| + |b - a|;
    if a != b {
      assert b - a != {};
    }
  }

  lemma MissingMonotone(sp: Space, lo: nat, v: nat, hi: nat)
    requires v <= hi
    ensures Missing(sp, lo, v) <= Missing(sp, lo, hi)
  {
    TableIdsMonotone(lo, v, hi);
    SmallerIds(TableIds(lo, v) - Ids(sp), TableIds(lo, hi) - Ids(sp));
  }

  /** The paths of [lo, v) being there, the next page needs the nodes that its own path lacks. */
  lemma MissingStep(sp: Space, sp': Space, lo: nat, v: nat)
    requires lo <= v && Ids(sp') == Ids(sp) + TableIds(lo, v)
    ensures |Ids(sp')| == |Ids(sp)| + Missing(sp, lo, v)
    ensures Missing(sp, lo, v + 1) == Missing(sp, lo, v) + Missing(sp', v, v + 1)
  {
    hide TableIds;
    TableIdsStep(lo, v);
    var a, b, c := Ids(sp), TableIds(lo, v), TableIds(v, v + 1);
    UnionSize(a, b);
    UnionSize(a, b + c);
    UnionSize(a + b, c);
    assert a + (b + c) == a + b + c;
  }

  /** No node is missing for a page number exactly when its lowest table exists. */
  lemma NoneMissing(sp: Space, v: nat)
    requires sp.Shape()
    ensures Missing(sp, v, v + 1) == 0 <==> HasTable(sp, v)
  {
    hide GoodLeaf;
    TableIdsStep(v, v);
    if HasTable(sp, v) {
      assert TablesAt(sp, v, v + 1);
      NothingMissing(sp, v, v + 1);
    } else {
      assert PathId(0, v) in TableIds(v, v + 1) - Ids(sp);
    }
  }

  /** With all tables in place none is missing. */
  lemma NothingMissing(sp: Space, lo: nat, hi: nat)
    requires sp.Shape() && TablesAt(sp, lo, hi)
    ensures Missing(sp, lo, hi) == 0 && TableIds(lo, hi) <= Ids(sp)
  {
    hide GoodLeaf;
    forall n | n in TableIds(lo, hi) ensures n in sp.nodes {
      var u: nat :| lo <= u < hi && (n == PathId(1, u) || n == PathId(0, u));
      assert HasTable(sp, u) && Parent(NodeId(0, u / 512)) == PathId(1, u);
    }
    assert TableIds(lo, hi) - Ids(sp) == {};
  }

  /** How `walk` may move a page table: the leaf map stays, missing nodes of the path of `v` may appear. */
  ghost predicate Walked(m: Mem, free: seq<nat>, sp: Space, m': Mem, free': seq<nat>, sp': Space, v: nat, alloc: bool) {
    && sp'.leaf == sp.leaf
    && Root in sp.nodes && Root in sp'.nodes && sp'.nodes[Root] == sp.nodes[Root]
    && Conserved(free, sp, free', sp')
    && sp.NodePages() <= sp'.NodePages() && Same(m, m', sp'.NodePages())
    && Ids(sp) <= Ids(sp') <= Ids(sp) + PathIds(v)
    && (NodeId(0, v / 512) in sp.nodes || !alloc ==> sp' == sp && m' == m && free' == free)
  }

  /** A node of the path of `v` joins the others. */
  lemma LevelIds(sp: Space, v: nat, level: nat, page: nat)
    requires 0 < level <= 2
    ensures Ids(sp) <= Ids(sp) + PathIds(v)
    ensures Ids(sp) <= Ids(sp.(nodes := sp.nodes[PathId(level - 1, v) := page])) <= Ids(sp) + PathIds(v)
  {
    hide Space.NodePages;
    hide PathId;
  }

  /** One turn of the loop of `walk`: follow the entry at `level`, or allocate the node below it. */
  method WalkLevel(k: Kmem, pagetable: nat, level: nat, va: nat, alloc: bool, ghost sp: Space) returns (next: nat, ghost sp': Space)
    requires Tree(k, sp) && va < MAXVA && 0 < level <= 2
    requires PathId(level, va / 4096) in sp.nodes && pagetable == sp.nodes[PathId(level, va / 4096)] * 4096
    modifies k
    ensures Tree(k, sp') && Walked(old(k.mem), old(k.free), sp, k.mem, k.free, sp', va / 4096, alloc)
    ensures next != 0 ==> PathId(level - 1, va / 4096) in sp'.nodes && next == sp'.nodes[PathId(level - 1, va / 4096)] * 4096
    ensures next == 0 ==> NodeId(0, va / 4096 / 512) !in sp'.nodes && (alloc ==> k.free == [])
  {
    hide Word;
    hide PX;
    hide Tree;
    hide V;
    hide Pte2Pa;
    hide WordAddr;
    hide Conserved;
    hide Ids;
    hide PathIds;
    ghost var v := va / 4096;
    LevelIds(sp, v, level, 0);
    var i := PX(level, va);
    RootNode(k, sp);
    NodeInMem(k, sp, PathId(level, v));
    PathEntry(k, sp, level, va);
    WordAddrParts(pagetable / 4096, i);
    var pte := k.Load(WordAddr(pagetable / 4096, i));
    sp' := sp;
    ConservedRefl(k.free, sp);
    if V(pte) {
      next := Pte2Pa(pte);
      NodeInMem(k, sp, PathId(level - 1, v));
    } else {
      PathMissing(k, sp, level - 1, v);
      next := 0;
      if alloc {
        next, sp' := AllocNode(k, pagetable / 4096, level, va, i, sp);
        LevelIds(sp, v, level, next / 4096);
      }
    }
  }

  /**
   * walk: the address of the level-0 entry of `va`, 0 when a node is missing and may not or
   * cannot be allocated.  The leaf map never changes, whether walk succeeds or fails midway.
   */
  method Walk(k: Kmem, root: nat, va: nat, alloc: bool, ghost sp: Space) returns (pte: nat, ghost sp': Space)
    requires Tree(k, sp) && root == sp.RootPage() * 4096
    requires va < MAXVA
    modifies k
    ensures Tree(k, sp') && Walked(old(k.mem), old(k.free), sp, k.mem, k.free, sp', va / 4096, alloc)
    ensures pte != 0 <==> NodeId(0, va / 4096 / 512) in sp'.nodes
    ensures pte != 0 ==> pte == SlotAddr(sp', va / 4096)
    ensures pte == 0 && alloc ==> k.free == []
    ensures alloc ==> (pte != 0 <==> Missing(sp, va / 4096, va / 4096 + 1) <= |old(k.free)|)
    ensures pte != 0 ==> Ids(sp') == Ids(sp) + PathIds(va / 4096)
  {
    hide PX;
    hide Tree;
    hide Walked;
    hide WordAddr;
    hide Missing;
    hide Ids;
    ghost var v := va / 4096;
    sp' := sp;
    RootNode(k, sp);
    WalkedRefl(k.mem, k.free, sp, v, alloc);
    var pagetable := root;
    var level := 2;
    while level > 0
      invariant 0 <= level <= 2
      invariant Tree(k, sp') && Walked(old(k.mem), old(k.free), sp, k.mem, k.free, sp', v, alloc)
      invariant PathId(level, v) in sp'.nodes && pagetable == sp'.nodes[PathId(level, v)] * 4096
    {
      ghost var before, freeBefore, m := sp', k.free, k.mem;
      pagetable, sp' := WalkLevel(k, pagetable, level, va, alloc, sp');
      WalkedTrans(old(k.mem), old(k.free), sp, m, freeBefore, before, k.mem, k.free, sp', v, alloc);
      if pagetable == 0 {
        WalkFails(old(k.mem), old(k.free), sp, k.mem, k.free, sp', v, alloc);
        return 0, sp';
      }
      level := level - 1;
    }
    WalkPays(k, old(k.mem), old(k.free), sp, sp', v, alloc);
    PathStep(sp', 0, va);
    NodeInMem(k, sp', PathId(0, v));
    WordAddrParts(pagetable / 4096, PX(0, va));
    pte := WordAddr(pagetable / 4096, PX(0, va));
  }

  lemma WalkedRefl(m: Mem, free: seq<nat>, sp: Space, v: nat, alloc: bool)
    requires Root in sp.nodes
    ensures Walked(m, free, sp, m, free, sp, v, alloc)
  {
  }

  lemma WalkedTrans(m0: Mem, f0: seq<nat>, s0: Space, m1: Mem, f1: seq<nat>, s1: Space, m2: Mem, f2: seq<nat>, s2: Space, v: nat, alloc: bool)
    requires Walked(m0, f0, s0, m1, f1, s1, v, alloc)
    requires Walked(m1, f1, s1, m2, f2, s2, v, alloc)
    ensures Walked(m0, f0, s0, m2, f2, s2, v, alloc)
  {
    hide Space.NodePages;
  }

  /** walk has used up the free list before it had the nodes of the path. */
  lemma WalkFails(m0: Mem, f0: seq<nat>, s0: Space, m: Mem, f: seq<nat>, s: Space, v: nat, alloc: bool)
    requires Walked(m0, f0, s0, m, f, s, v, alloc) && NodeId(0, v / 512) !in s.nodes && (alloc ==> f == [])
    ensures alloc ==> |f0| < Missing(s0, v, v + 1)
  {
    TableIdsStep(v, v);
    var a, p := Ids(s0), PathIds(v);
    UnionSize(a, Ids(s));
    assert a + Ids(s) == Ids(s);
    assert PathId(0, v) in p - a && PathId(0, v) !in Ids(s) - a;
    SmallerIds(Ids(s) - a, p - a);
  }

  /** walk has paid one free page for each node that was missing. */
  lemma WalkPays(k: Kmem, m0: Mem, f0: seq<nat>, s0: Space, s: Space, v: nat, alloc: bool)
    requires Tree(k, s) && Walked(m0, f0, s0, k.mem, k.free, s, v, alloc) && PathId(0, v) in s.nodes
    ensures Missing(s0, v, v + 1) <= |f0| && Ids(s) == Ids(s0) + PathIds(v)
  {
    hide Tree;
    hide Walked;
    hide Ids;
    hide PathIds;
    hide Missing;
    hide Space.Shape;
    RootNode(k, s);
    WalkedIds(m0, f0, s0, k.mem, k.free, s, v, alloc);
    PathThere(s, v);
    Paid(f0, s0, k.free, s, v);
  }

  lemma WalkedIds(m0: Mem, f0: seq<nat>, s0: Space, m: Mem, f: seq<nat>, s: Space, v: nat, alloc: bool)
    requires Walked(m0, f0, s0, m, f, s, v, alloc)
    ensures |f| + |Ids(s)| == |f0| + |Ids(s0)| && Ids(s0) <= Ids(s) <= Ids(s0) + PathIds(v)
  {
    hide Ids;
    hide PathIds;
  }

  lemma Paid(f0: seq<nat>, s0: Space, f: seq<nat>, s: Space, v: nat)
    requires |f| + |Ids(s)| == |f0| + |Ids(s0)|
    ensures Ids(s) == Ids(s0) + PathIds(v) ==> Missing(s0, v, v + 1) <= |f0|
  {
    hide Ids;
    hide PathIds;
    TableIdsStep(v, v);
    UnionSize(Ids(s0), PathIds(v));
  }

  /** Address of the level-0 entry of page number `v`. */
  ghost function SlotAddr(sp: Space, v: nat): nat
    requires NodeId(0, v / 512) in sp.nodes
  {
    WordAddr(sp.nodes[NodeId(0, v / 512)], v % 512)
  }

  lemma RootNode(k: Kmem, sp: Space)
    requires Tree(k, sp)
    ensures sp.Shape() && Root in sp.nodes && sp.RootPage() == sp.nodes[Root]
  {
  }

  /** A missing node of a path rules out every node below it. */
  lemma PathMissing(k: Kmem, sp: Space, level: nat, v: nat)
    requires Tree(k, sp) && level < 2 && PathId(level, v) !in sp.nodes
    ensures PathId(0, v) !in sp.nodes && v !in sp.leaf
  {
    AbsentPath(sp, level, v);
    assert Parent(PathId(0, v)) == PathId(1, v);
  }

  lemma ConservedRefl(free: seq<nat>, sp: Space)
    ensures Conserved(free, sp, free, sp)
  {
  }

  lemma NodePlus(sp: Space, id: NodeId, page: nat)
    requires id !in sp.nodes
    ensures Ids(sp.(nodes := sp.nodes[id := page])) == Ids(sp) + {id}
    ensures |Ids(sp.(nodes := sp.nodes[id := page]))| == |Ids(sp)| + 1
  {
    hide Space.NodePages;
    assert Ids(sp.(nodes := sp.nodes[id := page])) == Ids(sp) + {id};
  }

  lemma PagesPlus(sp: Space, id: NodeId, page: nat)
    requires id !in sp.nodes
    ensures sp.(nodes := sp.nodes[id := page]).NodePages() == sp.NodePages() + {page}
  {
    var sp' := sp.(nodes := sp.nodes[id := page]);
    forall p ensures p in sp'.NodePages() <==> p in sp.NodePages() + {page} {
      if p in sp.NodePages() {
        var n :| n in sp.nodes && sp.nodes[n] == p;
        assert sp'.nodes[n] == p;
      }
      assert sp'.nodes[id] == page;
    }
  }

  lemma NodeAdded(free: seq<nat>, sp: Space, id: NodeId)
    requires free != [] && id !in sp.nodes
    ensures var sp' := sp.(nodes := sp.nodes[id := free[0]]);
      && sp'.NodePages() == sp.NodePages() + {free[0]}
      && Conserved(free, sp, free[1..], sp')
  {
    NodePlus(sp, id, free[0]);
    PagesPlus(sp, id, free[0]);
    PushSet(free[1..], free[0]);
    hide Ids;
    hide ToSet;
    hide Space.NodePages;
    assert free == [free[0]] + free[1..];
  }

  lemma ConservedNodes(free: seq<nat>, sp: Space, free': seq<nat>, sp': Space, sp'': Space)
    requires Conserved(free, sp, free', sp') && sp''.nodes == sp'.nodes
    ensures Conserved(free, sp, free', sp'') && Ids(sp'') == Ids(sp') && sp''.NodePages() == sp'.NodePages()
  {
  }

  lemma ConservedTrans(f0: seq<nat>, s0: Space, f1: seq<nat>, s1: Space, f2: seq<nat>, s2: Space)
    requires Conserved(f0, s0, f1, s1) && Conserved(f1, s1, f2, s2)
    ensures Conserved(f0, s0, f2, s2)
  {
    hide Ids;
    hide Space.NodePages;
    hide ToSet;
  }

  lemma ConservedCount(free: seq<nat>, sp: Space, free': seq<nat>, sp': Space)
    requires Conserved(free, sp, free', sp')
    ensures |free'| + |Ids(sp')| == |free| + |Ids(sp)| && |free'| <= |free|
  {
    hide Ids;
  }

  /** Free pages and tree nodes together are the same set of pages; each new node cost one free page. */
  ghost predicate Conserved(free: seq<nat>, sp: Space, free': seq<nat>, sp': Space) {
    && |free'| <= |free|
    && |free'| + |Ids(sp')| == |free| + |Ids(sp)|
    && ToSet(free') + sp'.NodePages() == ToSet(free) + sp.NodePages()
  }

  // ----- mappages -----

  /** The leaf map after mapping `n` pages from page number `v` to consecutive frames from `f`. */
  function MapRange(leaf: map<nat, Leaf>, v: nat, f: nat, n: nat, flags: nat): map<nat, Leaf> {
    if n == 0 then leaf else MapRange(leaf, v, f, n - 1, flags)[v + n - 1 := Leaf(f + n - 1, flags)]
  }

  /** MapRange adds exactly the pages [v, v + n), page v + i to frame f + i, over whatever was there. */
  lemma {:induction false} MapRangeIs(leaf: map<nat, Leaf>, v: nat, f: nat, n: nat, flags: nat)
    ensures var leaf' := MapRange(leaf, v, f, n, flags);
      && (forall u: nat :: u in leaf' <==> u in leaf || v <= u < v + n)
      && (forall u: nat | u in leaf' :: leaf'[u] == if v <= u < v + n then Leaf(f + u - v, flags) else leaf[u])
  {
    if n > 0 {
      MapRangeIs(leaf, v, f, n - 1, flags);
    }
  }

  lemma NewLeaf(f: nat, perm: nat)
    requires f < MAXPPN && LeafPerm(perm)
    ensures GoodLeaf(Leaf(f, SetV(perm))) && Encode(Leaf(f, SetV(perm))) == f * 1024 + SetV(perm)
  {
    SetVHalf(perm);
  }

  /** `*pte` for the level-0 entry of page number `v`. */
  method LoadEntry(k: Kmem, pte: nat, ghost v: nat, ghost sp: Space) returns (w: nat)
    requires Tree(k, sp) && NodeId(0, v / 512) in sp.nodes && pte == SlotAddr(sp, v)
    ensures w == LeafPte(sp.leaf, v)
    ensures V(w) <==> v in sp.leaf
    ensures v in sp.leaf ==> Pte2Pa(w) == sp.leaf[v].frame * 4096 && PteFlags(w) == sp.leaf[v].flags != PTE_V
  {
    hide Word;
    hide Space.Shape;
    hide WordAddr;
    hide LeafPerm;
    ghost var id := NodeId(0, v / 512);
    NodeInMem(k, sp, id);
    WordAddrParts(sp.nodes[id], v % 512);
    assert Holds(k.mem, sp, id);
    w := k.Load(pte);
    assert id.key * 512 + v % 512 == v;
    LeafEntry(k.mem, sp, v);
  }

  lemma LeafEntry(m: Mem, sp: Space, v: nat)
    requires WF(m, sp)
    ensures V(LeafPte(sp.leaf, v)) <==> v in sp.leaf
    ensures v in sp.leaf ==>
      && var w := LeafPte(sp.leaf, v);
      && Pte2Pa(w) == sp.leaf[v].frame * 4096 && PteFlags(w) == sp.leaf[v].flags != PTE_V
  {
    hide Holds;
    if v in sp.leaf {
      EncodedLeaf(sp.leaf[v]);
    } else {
      ZeroInvalid();
    }
  }

  /** `*pte = w`, where `w` is the encoding of `l`. */
  method StoreEntry(k: Kmem, pte: nat, ghost v: nat, ghost l: Leaf, w: nat, ghost sp: Space) returns (ghost sp': Space)
    requires Tree(k, sp) && NodeId(0, v / 512) in sp.nodes && pte == SlotAddr(sp, v)
    requires v < MAXVPN && GoodLeaf(l) && w == Encode(l)
    modifies k`mem
    ensures Tree(k, sp') && sp' == sp.(leaf := sp.leaf[v := l])
    ensures Same(old(k.mem), k.mem, sp.NodePages())
  {
    hide Word;
    hide SetWord;
    hide Space.Shape;
    hide WordAddr;
    hide WF;
    ghost var id := NodeId(0, v / 512);
    NodeInMem(k, sp, id);
    WordAddrParts(sp.nodes[id], v % 512);
    EncodedLeaf(l);
    ghost var m: Mem := k.mem;
    k.Store(pte, w);
    InsertLeaf(m, sp, v, l, k.mem);
    sp' := sp.(leaf := sp.leaf[v := l]);
  }

  /** `*pte = 0` */
  method ClearEntry(k: Kmem, pte: nat, ghost v: nat, ghost sp: Space) returns (ghost sp': Space)
    requires Tree(k, sp) && v in sp.leaf && NodeId(0, v / 512) in sp.nodes && pte == SlotAddr(sp, v)
    modifies k`mem
    ensures Tree(k, sp') && sp' == sp.(leaf := sp.leaf - {v})
    ensures Same(old(k.mem), k.mem, sp.NodePages())
  {
    hide Word;
    hide SetWord;
    hide Space.Shape;
    hide WordAddr;
    hide WF;
    ghost var id := NodeId(0, v / 512);
    NodeInMem(k, sp, id);
    WordAddrParts(sp.nodes[id], v % 512);
    ghost var m: Mem := k.mem;
    k.Store(pte, 0);
    DeleteLeaf(m, sp, v, k.mem);
    sp' := sp.(leaf := sp.leaf - {v});
  }

  /** One turn of mappages: walk to the entry of `a` and write it. */
  method MapOne(k: Kmem, root: nat, a: nat, pa: nat, perm: nat, ghost sp: Space) returns (r: int, ghost sp': Space)
    requires Tree(k, sp) && root == sp.RootPage() * 4096
    requires a < MAXVA && pa % 4096 == 0 && pa / 4096 < MAXPPN && LeafPerm(perm)
    requires a / 4096 !in sp.leaf
    modifies k
    ensures Tree(k, sp') && sp'.RootPage() == sp.RootPage()
    ensures r == 0 || r == -1
    ensures sp'.leaf == if r == 0 then sp.leaf[a / 4096 := Leaf(pa / 4096, SetV(perm))] else sp.leaf
    ensures Conserved(old(k.free), sp, k.free, sp')
    ensures sp.NodePages() <= sp'.NodePages() && Same(old(k.mem), k.mem, sp'.NodePages())
    ensures NodeId(0, a / 4096 / 512) in sp.nodes ==> r == 0 && sp'.nodes == sp.nodes && k.free == old(k.free)
    ensures r == -1 ==> k.free == []
    ensures r == 0 <==> Missing(sp, a / 4096, a / 4096 + 1) <= |old(k.free)|
    ensures r == 0 ==> Ids(sp') == Ids(sp) + PathIds(a / 4096)
  {
    hide Tree;
    hide LeafPerm;
    hide SetV;
    hide WordAddr;
    hide Word;
    hide SetWord;
    hide Missing;
    hide Ids;
    hide PathIds;
    hide Conserved;
    ghost var v := a / 4096;
    RootNode(k, sp);
    NewLeaf(pa / 4096, perm);
    var pte;
    pte, sp' := Walk(k, root, a, true, sp);
    RootNode(k, sp');
    if pte == 0 {
      return -1, sp';
    }
    var old0 := LoadEntry(k, pte, v, sp');
    if V(old0) {
      assert false; // panic("mappages: remap")
    }
    ghost var walked := sp';
    sp' := StoreEntry(k, pte, v, Leaf(pa / 4096, SetV(perm)), Pa2Pte(pa) + SetV(perm), sp');
    ConservedNodes(old(k.free), sp, k.free, walked, sp');
    r := 0;
  }

  lemma PathThere(sp: Space, v: nat)
    requires sp.Shape() && NodeId(0, v / 512) in sp.nodes
    ensures PathIds(v) <= Ids(sp)
  {
    hide GoodLeaf;
    assert Parent(PathId(0, v)) == PathId(1, v);
  }

  /** One more page costs what it misses: enough pages are free for it exactly when they were at the start. */
  lemma TurnCounts(free0: seq<nat>, sp: Space, free: seq<nat>, sp': Space, v: nat, n: nat, hi: nat)
    requires Conserved(free0, sp, free, sp') && Ids(sp') == Ids(sp) + TableIds(v, v + n) && v + n < hi
    ensures Missing(sp', v + n, v + n + 1) <= |free| <==> Missing(sp, v, v + n + 1) <= |free0|
    ensures Missing(sp, v, v + n + 1) <= Missing(sp, v, hi)
    ensures TableIds(v, v + n + 1) == TableIds(v, v + n) + PathIds(v + n)
  {
    hide Missing;
    hide TableIds;
    hide PathIds;
    hide Ids;
    hide Conserved;
    MissingStep(sp, sp', v, v + n);
    TableIdsStep(v, v + n);
    MissingMonotone(sp, v, v + n + 1, hi);
    ConservedCount(free0, sp, free, sp');
  }

  /**
   * mappages: map [va, va + size) to the frames from pa.  On failure a prefix of `done` pages stays
   * mapped.  It succeeds exactly when there is a free page for each node that is missing.
   */
  method MapPages(k: Kmem, root: nat, va: nat, size: nat, pa: nat, perm: nat, ghost sp: Space)
    returns (r: int, ghost sp': Space, ghost done: nat)
    requires Tree(k, sp) && root == sp.RootPage() * 4096
    requires va % 4096 == 0 && size % 4096 == 0 && 0 < size && va + size <= MAXVA
    requires pa % 4096 == 0 && pa / 4096 + size / 4096 <= MAXPPN && LeafPerm(perm)
    requires forall v: nat | va / 4096 <= v < (va + size) / 4096 :: v !in sp.leaf
    modifies k
    ensures Tree(k, sp') && sp'.RootPage() == sp.RootPage()
    ensures done <= size / 4096 && (r == 0 <==> done == size / 4096) && (r == -1 <==> done < size / 4096)
    ensures sp'.leaf == MapRange(sp.leaf, va / 4096, pa / 4096, done, SetV(perm))
    ensures Conserved(old(k.free), sp, k.free, sp')
    ensures sp.NodePages() <= sp'.NodePages() && Same(old(k.mem), k.mem, sp'.NodePages())
    ensures NodeId(0, va / 4096 / 512) in sp.nodes && size == 4096 ==> r == 0 && sp'.nodes == sp.nodes && k.free == old(k.free)
    ensures r == -1 ==> k.free == []
    ensures r == 0 <==> Missing(sp, va / 4096, (va + size) / 4096) <= |old(k.free)|
    ensures r == 0 ==> Ids(sp') == Ids(sp) + TableIds(va / 4096, (va + size) / 4096)
  {
    hide Tree;
    hide LeafPerm;
    hide SetV;
    hide Missing;
    hide TableIds;
    hide PathIds;
    hide Ids;
    hide Conserved;
    hide Space.NodePages;
    ghost var v := va / 4096;
    TableIdsStep(v, v);
    ConservedRefl(k.free, sp);
    var a, last, p := va, va + size - 4096, pa;
    sp', done, r := sp, 0, -1;
    while true
      invariant Tree(k, sp') && sp'.RootPage() == sp.RootPage()
      invariant done < size / 4096 && a == va + done * 4096 && p == pa + done * 4096
      invariant sp'.leaf == MapRange(sp.leaf, va / 4096, pa / 4096, done, SetV(perm))
      invariant Conserved(old(k.free), sp, k.free, sp')
      invariant sp.NodePages() <= sp'.NodePages() && Same(old(k.mem), k.mem, sp'.NodePages())
      invariant done == 0 ==> sp'.nodes == sp.nodes && k.free == old(k.free)
      invariant Ids(sp') == Ids(sp) + TableIds(v, v + done)
      decreases size / 4096 - done
    {
      MapRangeIs(sp.leaf, va / 4096, pa / 4096, done, SetV(perm));
      TurnCounts(old(k.free), sp, k.free, sp', v, done, (va + size) / 4096);
      ghost var before, freeBefore := sp', k.free;
      r, sp' := MapOne(k, root, a, p, perm, sp');
      ConservedTrans(old(k.free), sp, freeBefore, before, k.free, sp');
      if r != 0 {
        return;
      }
      done := done + 1;
      if a == last {
        return;
      }
      a, p := a + 4096, p + 4096;
    }
  }

  // ----- uvmunmap -----

  /** The frames mapped at page numbers [lo, hi). */
  function Frames(leaf: map<nat, Leaf>, lo: nat, hi: nat): set<nat> {
    set v | v in leaf && lo <= v < hi :: leaf[v].frame
  }

  /** The leaf map without page numbers [lo, hi). */
  function Without(leaf: map<nat, Leaf>, lo: nat, hi: nat): map<nat, Leaf> {
    map v | v in leaf && !(lo <= v < hi) :: leaf[v]
  }

  function ToSet(s: seq<nat>): set<nat> {
    set p | p in s
  }

  /** The frames at [lo, hi) may be given to kfree one after the other. */
  ghost predicate Freeable(k: Kmem, free: seq<nat>, sp: Space, lo: nat, hi: nat) {
    && (forall v | v in sp.leaf && lo <= v < hi ::
          k.Managed(sp.leaf[v].frame) && sp.leaf[v].frame !in free && sp.leaf[v].frame !in sp.NodePages())
    && (forall u, v | u in sp.leaf && v in sp.leaf && lo <= u < v < hi :: sp.leaf[u].frame != sp.leaf[v].frame)
  }

  lemma InToSet(s: seq<nat>, p: nat)
    ensures p in s <==> p in ToSet(s)
  {
  }

  lemma TreeFrame(k: Kmem, sp: Space, m: Mem)
    requires k.Valid() && WF(m, sp)
    requires forall p | p in sp.NodePages() :: k.Managed(p) && p !in k.free && p in m && k.mem[p] == m[p]
    ensures Tree(k, sp)
  {
    hide Space.Shape;
    hide Kmem.Valid;
    forall p | p in sp.NodePages() ensures p in k.mem {
      ManagedInMem(k, p);
    }
    WFFrame(m, k.mem, sp);
  }

  lemma ManagedInMem(k: Kmem, p: nat)
    requires k.Valid() && k.Managed(p)
    ensures p in k.mem && 0 < p < MAXPPN
  {
  }

  /** One turn of uvmunmap: find the entry of `a`, free its frame if asked, clear it. */
  method UnmapOne(k: Kmem, root: nat, a: nat, doFree: bool, ghost sp: Space) returns (ghost sp': Space)
    requires Tree(k, sp) && root == sp.RootPage() * 4096
    requires a < MAXVA && a / 4096 in sp.leaf
    requires doFree ==> Freeable(k, k.free, sp, a / 4096, a / 4096 + 1)
    modifies k
    ensures Tree(k, sp') && sp' == sp.(leaf := sp.leaf - {a / 4096})
    ensures k.free == if doFree then [sp.leaf[a / 4096].frame] + old(k.free) else old(k.free)
    ensures Same(old(k.mem), k.mem, sp.NodePages() + if doFree then {sp.leaf[a / 4096].frame} else {})
  {
    hide Word;
    hide WF;
    hide WordAddr;
    hide Kmem.Valid;
    hide V;
    hide PteFlags;
    ghost var v := a / 4096;
    LeafNode(k, sp, v);
    var pte;
    pte, sp' := Walk(k, root, a, false, sp);
    if pte == 0 {
      assert false; // panic("uvmunmap: walk")
    }
    var w := LoadEntry(k, pte, v, sp);
    if !V(w) {
      assert false; // panic("uvmunmap: not mapped")
    }
    if PteFlags(w) == PTE_V {
      assert false; // panic("uvmunmap: not a leaf")
    }
    if doFree {
      ghost var m: Mem := k.mem;
      k.Kfree(Pte2Pa(w));
      TreeFrame(k, sp, m);
    }
    sp' := ClearEntry(k, pte, v, sp);
  }

  lemma LeafNode(k: Kmem, sp: Space, v: nat)
    requires Tree(k, sp) && v in sp.leaf
    ensures NodeId(0, v / 512) in sp.nodes && v < MAXVPN && GoodLeaf(sp.leaf[v])
  {
  }

  /** The next page of a range: its frame joins those already taken, and leaves the rest. */
  lemma RangeStep(leaf: map<nat, Leaf>, lo: nat, v: nat)
    requires v in leaf && lo <= v
    ensures Frames(leaf, lo, v + 1) == Frames(leaf, lo, v) + {leaf[v].frame}
    ensures Without(leaf, lo, v) - {v} == Without(leaf, lo, v + 1)
  {
    var u := v;
    assert leaf[v].frame in Frames(leaf, lo, v + 1);
  }

  lemma EmptyRange(leaf: map<nat, Leaf>, lo: nat)
    ensures Frames(leaf, lo, lo) == {} && Without(leaf, lo, lo) == leaf
  {
  }

  lemma PushSet(free: seq<nat>, p: nat)
    ensures ToSet([p] + free) == ToSet(free) + {p}
  {
  }

  lemma FreeableStep(k: Kmem, free: seq<nat>, sp: Space, lo: nat, hi: nat)
    requires Freeable(k, free, sp, lo, hi) && lo < hi && lo in sp.leaf
    ensures Freeable(k, free, sp, lo, lo + 1)
    ensures Freeable(k, [sp.leaf[lo].frame] + free, sp.(leaf := sp.leaf - {lo}), lo + 1, hi)
  {
  }

  lemma WithoutAt(leaf: map<nat, Leaf>, lo: nat, hi: nat, v: nat)
    ensures v in Without(leaf, lo, hi) <==> v in leaf && !(lo <= v < hi)
    ensures v in Without(leaf, lo, hi) ==> Without(leaf, lo, hi)[v] == leaf[v]
  {
  }

  /**
   * uvmunmap: remove the mappings of [va, va + npages * PGSIZE), which must all exist, and give
   * their frames to the free list when `doFree`.
   */
  method UvmUnmap(k: Kmem, root: nat, va: nat, npages: nat, doFree: bool, ghost sp: Space) returns (ghost sp': Space)
    requires Tree(k, sp) && root == sp.RootPage() * 4096
    requires va % 4096 == 0 && va + npages * 4096 <= MAXVA
    requires forall v: nat | va / 4096 <= v < va / 4096 + npages :: v in sp.leaf
    requires doFree ==> Freeable(k, k.free, sp, va / 4096, va / 4096 + npages)
    modifies k
    ensures Tree(k, sp') && sp'.nodes == sp.nodes
    ensures sp'.leaf == Without(sp.leaf, va / 4096, va / 4096 + npages)
    ensures !doFree ==> k.free == old(k.free) && Same(old(k.mem), k.mem, sp.NodePages())
    ensures doFree ==>
      && |k.free| == |old(k.free)| + npages
      && ToSet(k.free) == ToSet(old(k.free)) + Frames(sp.leaf, va / 4096, va / 4096 + npages)
      && Same(old(k.mem), k.mem, sp.NodePages() + Frames(sp.leaf, va / 4096, va / 4096 + npages))
  {
    hide Tree;
    hide Frames;
    hide Without;
    hide Freeable;
    hide ToSet;
    sp' := sp;
    var a := va;
    ghost var lo, hi := va / 4096, va / 4096 + npages;
    ghost var v := lo;
    EmptyRange(sp.leaf, lo);
    while a < va + npages * 4096
      invariant a == v * 4096 && lo <= v <= hi
      invariant Tree(k, sp') && sp'.nodes == sp.nodes
      invariant sp'.leaf == Without(sp.leaf, lo, v)
      invariant doFree ==> Freeable(k, k.free, sp', v, hi)
      invariant !doFree ==> k.free == old(k.free) && Same(old(k.mem), k.mem, sp.NodePages())
      invariant doFree ==>
        && |k.free| == |old(k.free)| + (v - lo)
        && ToSet(k.free) == ToSet(old(k.free)) + Frames(sp.leaf, lo, v)
        && Same(old(k.mem), k.mem, sp.NodePages() + Frames(sp.leaf, lo, v))
      decreases hi - v
    {
      WithoutAt(sp.leaf, lo, v, v);
      RangeStep(sp.leaf, lo, v);
      if doFree {
        FreeableStep(k, k.free, sp', v, hi);
        PushSet(k.free, sp.leaf[v].frame);
      }
      sp' := UnmapOne(k, root, a, doFree, sp');
      a := a + 4096;
      v := v + 1;
    }
  }
}
