/**
 * Sv39 page tables as they lie in memory, and the partial map they stand for.
 *
 * `Translate` is the hardware's own page-table walk (section 4.3.2 of the RISC-V Privileged
 * Architecture) on raw memory.  A `Space` is the ghost shape of one page table: which page holds
 * each tree node, and the leaves by page number.  `WF` says that memory holds exactly that shape.
 */
module PageTable {
  import opened Riscv
  import opened PhysMem
  import opened ProcTypes

  datatype Leaf = Leaf(frame: nat, flags: nat)

  // A node of the tree: its level and the virtual-address prefix it serves.
  datatype NodeId = NodeId(level: nat, key: nat)

  datatype Space = Space(nodes: map<NodeId, nat>, leaf: map<nat, Leaf>) {
    function Child(id: NodeId, i: nat): NodeId
      requires id.level > 0
    {
      NodeId(id.level - 1, id.key * 512 + i)
    }

    function NodePages(): set<nat> { nodes.Values }

    /** The word that slot `i` of node `id` holds. */
    function Entry(id: NodeId, i: nat): nat {
      if id.level > 0 then
        if Child(id, i) in nodes then nodes[Child(id, i)] * 1024 + PTE_V else 0
      else
        LeafPte(leaf, id.key * 512 + i)
    }

    predicate Shape() {
      && Root in nodes
      && (forall id | id in nodes ::
            && id.level <= 2 && nodes[id] < MAXPPN
            && (id.level == 2 ==> id == Root)
            && (id.level < 2 ==> Parent(id) in nodes))
      && (forall a, b | a in nodes && b in nodes && a != b :: nodes[a] != nodes[b])
      && (forall v | v in leaf :: v < MAXVPN && NodeId(0, v / 512) in nodes && GoodLeaf(leaf[v]))
    }

    function RootPage(): nat {
      if Root in nodes then nodes[Root] else 0
    }
  }

  const Root: NodeId := NodeId(2, 0)
  const MAXPPN: nat := 0x1000_0000_0000

  function Parent(id: NodeId): NodeId {
    NodeId(id.level + 1, id.key / 512)
  }

  function Encode(l: Leaf): nat {
    l.frame * 1024 + l.flags
  }

  /** The level-0 entry of page number `v`. */
  function LeafPte(leaf: map<nat, Leaf>, v: nat): nat {
    if v in leaf then Encode(leaf[v]) else 0
  }

  predicate GoodLeaf(l: Leaf) {
    l.frame < MAXPPN && l.flags < 1024 && LeafPerm(l.flags) && V(l.flags)
  }

  lemma EncodedLeaf(l: Leaf)
    requires GoodLeaf(l)
    ensures V(Encode(l)) && (R(Encode(l)) || X(Encode(l)))
    ensures Encode(l) / 1024 == l.frame && PteFlags(Encode(l)) == l.flags
    ensures Encode(l) < 0x1_0000_0000_0000_0000
  {
    hide V;
    hide Half;
    Split(l.frame, l.flags);
  }

  lemma EncodedNode(page: nat)
    ensures var pte := page * 1024 + PTE_V; V(pte) && !R(pte) && !W(pte) && !X(pte) && pte / 1024 == page
  {
    Split(page, PTE_V);
  }

  /** The node that serves page number `v` at `level`. */
  function PathId(level: nat, v: nat): NodeId {
    if level == 2 then Root
    else if level == 1 then NodeId(1, v / 512 / 512)
    else NodeId(0, v / 512)
  }

  ghost predicate Holds(m: Mem, sp: Space, id: NodeId)
    requires id in sp.nodes
  {
    sp.nodes[id] in m && forall i: nat | i < 512 :: Word(m[sp.nodes[id]], i) == sp.Entry(id, i)
  }

  /** Memory `m` holds the page table described by `sp`. */
  ghost predicate WF(m: Mem, sp: Space) {
    sp.Shape() && forall id | id in sp.nodes :: Holds(m, sp, id)
  }

  /** Section 4.3.2: walk down from the root, stop at the first readable or executable entry. */
  function Translate(m: Mem, page: nat, level: nat, va: nat): Option<Leaf>
    requires level <= 2
    decreases level
  {
    if page !in m then None
    else
      var pte := Word(m[page], PX(level, va));
      if !V(pte) then None
      else if R(pte) || X(pte) then
        if level == 0 then Some(Leaf(pte / 1024, PteFlags(pte))) else None
      else if level == 0 then None
      else Translate(m, pte / 1024, level - 1, va)
  }

  function Lookup(leaf: map<nat, Leaf>, v: nat): Option<Leaf> {
    if v in leaf then Some(leaf[v]) else None
  }

  // ----- framing and update -----

  lemma WFFrame(m: Mem, m': Mem, sp: Space)
    requires WF(m, sp)
    requires forall p | p in sp.NodePages() :: p in m' && m'[p] == m[p]
    ensures WF(m', sp)
  {
    forall id | id in sp.nodes ensures Holds(m', sp, id) {
      assert Holds(m, sp, id);
      assert sp.nodes[id] in sp.NodePages();
    }
  }

  /** One node under a store to slot `i` of node `n`. */
  lemma HoldsAfterStore(m: Mem, m': Mem, sp: Space, sp': Space, id: NodeId, n: NodeId, i: nat, w: nat)
    requires id in sp.nodes && id in sp'.nodes && sp'.nodes[id] == sp.nodes[id] && Holds(m, sp, id)
    requires n in sp.nodes && sp.nodes[n] in m && i < 512 && w < 0x1_0000_0000_0000_0000
    requires sp.nodes[id] in m'
    requires m'[sp.nodes[id]] == if id == n then SetWord(m[sp.nodes[n]], i, w) else m[sp.nodes[id]]
    requires forall j: nat | j < 512 && !(id == n && j == i) :: sp'.Entry(id, j) == sp.Entry(id, j)
    requires id == n ==> sp'.Entry(n, i) == w
    ensures Holds(m', sp', id)
  {
    hide Word;
    hide SetWord;
    if id == n {
      WordsOfSetWord(m[sp.nodes[n]], i, w);
    }
  }

  lemma StoreNode(m: Mem, sp: Space, sp': Space, v: nat, w: nat, m': Mem, id: NodeId)
    requires sp.Shape() && id in sp.nodes && Holds(m, sp, id) && w < 0x1_0000_0000_0000_0000
    requires sp'.nodes == sp.nodes && sp.leaf - {v} == sp'.leaf - {v}
    requires NodeId(0, v / 512) in sp.nodes && w == LeafPte(sp'.leaf, v)
    requires var p := sp.nodes[NodeId(0, v / 512)];
      p in m && m' == m[p := SetWord(m[p], v % 512, w)]
    ensures Holds(m', sp', id)
  {
    hide Word;
    hide SetWord;
    hide GoodLeaf;
    var n := NodeId(0, v / 512);
    assert n.key * 512 + v % 512 == v;
    EntryElsewhere(sp, sp', v, id);
    hide Holds;
    HoldsAfterStore(m, m', sp, sp', id, n, v % 512, w);
  }

  /** A store to the level-0 slot of page number `v` changes the shape at `v` alone. */
  lemma StoreSlot(m: Mem, sp: Space, sp': Space, v: nat, w: nat, m': Mem)
    requires WF(m, sp) && sp'.Shape() && w < 0x1_0000_0000_0000_0000
    requires sp'.nodes == sp.nodes && sp.leaf - {v} == sp'.leaf - {v}
    requires NodeId(0, v / 512) in sp.nodes && w == LeafPte(sp'.leaf, v)
    requires var p := sp.nodes[NodeId(0, v / 512)];
      p in m && m' == m[p := SetWord(m[p], v % 512, w)]
    ensures WF(m', sp')
  {
    hide Holds;
    hide SetWord;
    hide GoodLeaf;
    forall id | id in sp'.nodes ensures Holds(m', sp', id) {
      StoreNode(m, sp, sp', v, w, m', id);
    }
  }

  lemma InsertShape(sp: Space, v: nat, l: Leaf)
    requires sp.Shape() && v < MAXVPN && GoodLeaf(l) && NodeId(0, v / 512) in sp.nodes
    ensures var sp' := sp.(leaf := sp.leaf[v := l]);
      sp'.Shape() && sp.leaf - {v} == sp'.leaf - {v}
  {
    hide GoodLeaf;
  }

  /** Storing the encoding of a leaf in its level-0 slot inserts it into the map. */
  lemma InsertLeaf(m: Mem, sp: Space, v: nat, l: Leaf, m': Mem)
    requires WF(m, sp) && v < MAXVPN && GoodLeaf(l)
    requires NodeId(0, v / 512) in sp.nodes
    requires var p := sp.nodes[NodeId(0, v / 512)];
      p in m && m' == m[p := SetWord(m[p], v % 512, Encode(l))]
    ensures WF(m', sp.(leaf := sp.leaf[v := l]))
  {
    hide Word;
    hide GoodLeaf;
    hide SetWord;
    hide Holds;
    InsertShape(sp, v, l);
    EncodedLeaf(l);
    hide Space.Shape;
    hide V;
    hide R;
    hide X;
    hide PteFlags;
    var sp' := sp.(leaf := sp.leaf[v := l]);
    StoreSlot(m, sp, sp', v, Encode(l), m');
  }

  /** Clearing the level-0 slot of a page number deletes it from the map. */
  lemma DeleteLeaf(m: Mem, sp: Space, v: nat, m': Mem)
    requires WF(m, sp) && v in sp.leaf
    requires var p := sp.nodes[NodeId(0, v / 512)];
      p in m && m' == m[p := SetWord(m[p], v % 512, 0)]
    ensures WF(m', sp.(leaf := sp.leaf - {v}))
  {
    hide Word;
    hide GoodLeaf;
    hide SetWord;
    var sp' := sp.(leaf := sp.leaf - {v});
    assert sp.leaf - {v} == sp'.leaf - {v};
    assert sp'.Shape();
    StoreSlot(m, sp, sp', v, 0, m');
  }

  /** Changing one leaf changes one entry. */
  lemma EntryElsewhere(sp: Space, sp': Space, v: nat, id: NodeId)
    requires sp'.nodes == sp.nodes && sp.leaf - {v} == sp'.leaf - {v}
    ensures forall i: nat | i < 512 && !(id == NodeId(0, v / 512) && i == v % 512) ::
      sp'.Entry(id, i) == sp.Entry(id, i)
  {
    forall i: nat | i < 512 && !(id == NodeId(0, v / 512) && i == v % 512)
      ensures sp'.Entry(id, i) == sp.Entry(id, i)
    {
      if id.level == 0 {
        var u := id.key * 512 + i;
        assert u != v;
        assert u in sp.leaf <==> u in sp.leaf - {v};
        assert u in sp'.leaf <==> u in sp'.leaf - {v};
        if u in sp.leaf {
          assert sp.leaf[u] == (sp.leaf - {v})[u];
        }
      }
    }
  }

  lemma AddNodeShape(sp: Space, id: NodeId, i: nat, page: nat)
    requires sp.Shape() && id in sp.nodes && id.level > 0 && i < 512
    requires page !in sp.NodePages() && page < MAXPPN
    ensures sp.(nodes := sp.nodes[sp.Child(id, i) := page]).Shape()
  {
    hide LeafPerm;
    KeySlot(id.key, i);
    forall a | a in sp.nodes ensures sp.nodes[a] != page {
      assert sp.nodes[a] in sp.NodePages();
    }
  }

  lemma AddNodeHolds(m: Mem, sp: Space, id: NodeId, i: nat, page: nat, m': Mem, n: NodeId)
    requires WF(m, sp) && id in sp.nodes && id.level > 0 && i < 512 && n in sp.nodes
    requires sp.Child(id, i) !in sp.nodes
    requires page in m && page !in sp.NodePages() && page < MAXPPN
    requires sp.nodes[id] in m
    requires m' == m[page := Fill(0)][sp.nodes[id] := SetWord(m[sp.nodes[id]], i, page * 1024 + PTE_V)]
    ensures Holds(m', sp.(nodes := sp.nodes[sp.Child(id, i) := page]), n)
  {
    hide Word;
    hide SetWord;
    hide Fill;
    hide GoodLeaf;
    var sp' := sp.(nodes := sp.nodes[sp.Child(id, i) := page]);
    assert Holds(m, sp, n);
    assert sp.nodes[n] in sp.NodePages();
    assert sp.nodes[id] in sp.NodePages();
    NodeEntryElsewhere(sp, id, i, page, n);
    HoldsAfterStore(m, m', sp, sp', n, id, i, page * 1024 + PTE_V);
  }

  /** Linking a zeroed page below an empty slot adds a node and leaves the map alone. */
  lemma AddNode(m: Mem, sp: Space, id: NodeId, i: nat, page: nat, m': Mem)
    requires WF(m, sp) && id in sp.nodes && id.level > 0 && i < 512
    requires sp.Child(id, i) !in sp.nodes
    requires page in m && page !in sp.NodePages() && page < MAXPPN
    requires sp.nodes[id] in m
    requires m' == m[page := Fill(0)][sp.nodes[id] := SetWord(m[sp.nodes[id]], i, page * 1024 + PTE_V)]
    ensures WF(m', sp.(nodes := sp.nodes[sp.Child(id, i) := page]))
  {
    hide Word;
    hide SetWord;
    hide Fill;
    hide GoodLeaf;
    var c := sp.Child(id, i);
    var sp' := sp.(nodes := sp.nodes[c := page]);
    AddNodeShape(sp, id, i, page);
    assert sp.nodes[id] in sp.NodePages();
    assert id.level <= 2;
    forall n | n in sp'.nodes ensures Holds(m', sp', n) {
      if n == c {
        ZeroPageWords();
        NoChildren(sp, c, page);
      } else {
        AddNodeHolds(m, sp, id, i, page, m', n);
      }
    }
  }

  lemma KeySlot(k: nat, i: nat)
    requires i < 512
    ensures (k * 512 + i) / 512 == k && (k * 512 + i) % 512 == i
  {
  }

  /** Below an absent node there is nothing. */
  lemma NoChildren(sp: Space, c: NodeId, page: nat)
    requires sp.Shape() && c !in sp.nodes && c.level < 2
    ensures var sp' := sp.(nodes := sp.nodes[c := page]);
      forall i: nat | i < 512 :: sp'.Entry(c, i) == 0
  {
    hide LeafPerm;
    var sp' := sp.(nodes := sp.nodes[c := page]);
    forall i: nat | i < 512
      ensures sp'.Entry(c, i) == 0
    {
      KeySlot(c.key, i);
      if c.level > 0 {
        assert Parent(sp.Child(c, i)) == c;
      }
    }
  }

  lemma NodeEntryElsewhere(sp: Space, id: NodeId, i: nat, page: nat, n: NodeId)
    requires id.level > 0 && i < 512
    ensures var sp' := sp.(nodes := sp.nodes[sp.Child(id, i) := page]);
      forall j: nat | j < 512 && !(n == id && j == i) :: sp'.Entry(n, j) == sp.Entry(n, j)
  {
    var sp' := sp.(nodes := sp.nodes[sp.Child(id, i) := page]);
    forall j: nat | j < 512 && !(n == id && j == i)
      ensures sp'.Entry(n, j) == sp.Entry(n, j)
    {
      KeySlot(n.key, j);
      KeySlot(id.key, i);
    }
  }

  // ----- the walk agrees with the map -----

  /** The slot of node PathId(level, v) that the index of level `level` selects. */
  lemma PathStep(sp: Space, level: nat, va: nat)
    requires va < MAXVA && level <= 2
    ensures level > 0 ==> sp.Child(PathId(level, va / 4096), PX(level, va)) == PathId(level - 1, va / 4096)
    ensures level > 0 ==> Parent(PathId(level - 1, va / 4096)) == PathId(level, va / 4096)
    ensures level == 0 ==> PathId(0, va / 4096).key * 512 + PX(0, va) == va / 4096
    ensures PX(0, va) == va / 4096 % 512
  {
    IndexPath(va);
    var v := va / 4096;
    assert v / 512 / 512 == v / 0x4_0000;
    assert v / 0x4_0000 < 512;
  }

  lemma TranslateLeaf(m: Mem, sp: Space, va: nat)
    requires WF(m, sp) && va < MAXVA && PathId(0, va / 4096) in sp.nodes
    ensures Translate(m, sp.nodes[PathId(0, va / 4096)], 0, va) == Lookup(sp.leaf, va / 4096)
  {
    hide Word;
    hide PX;
    hide R;
    hide X;
    hide V;
    hide GoodLeaf;
    var v := va / 4096;
    assert Holds(m, sp, PathId(0, v));
    PathStep(sp, 0, va);
    assert Word(m[sp.nodes[PathId(0, v)]], PX(0, va)) == sp.Entry(PathId(0, v), PX(0, va));
    if v in sp.leaf {
      EncodedLeaf(sp.leaf[v]);
    } else {
      ZeroInvalid();
    }
  }

  lemma ZeroInvalid()
    ensures !V(0) && !R(0) && !X(0)
  {
  }

  lemma {:induction false} TranslateFrom(m: Mem, sp: Space, level: nat, va: nat)
    requires WF(m, sp) && va < MAXVA && level <= 2
    requires PathId(level, va / 4096) in sp.nodes
    ensures Translate(m, sp.nodes[PathId(level, va / 4096)], level, va) == Lookup(sp.leaf, va / 4096)
    decreases level
  {
    hide Word;
    hide PX;
    hide R;
    hide X;
    hide V;
    hide LeafPerm;
    if level == 0 {
      TranslateLeaf(m, sp, va);
    } else {
      var v := va / 4096;
      var id := PathId(level, v);
      var c := PathId(level - 1, v);
      assert Holds(m, sp, id);
      PathStep(sp, level, va);
      AbsentPath(sp, level - 1, v);
      assert Word(m[sp.nodes[id]], PX(level, va)) == sp.Entry(id, PX(level, va));
      assert sp.Child(id, PX(level, va)) == c;
      if c in sp.nodes {
        EncodedNode(sp.nodes[c]);
        TranslateFrom(m, sp, level - 1, va);
      } else {
        ZeroInvalid();
      }
    }
  }

  lemma AbsentPath(sp: Space, level: nat, v: nat)
    requires sp.Shape() && level < 2
    ensures PathId(level, v) !in sp.nodes ==> v !in sp.leaf
  {
    assert Parent(PathId(0, v)) == PathId(1, v);
  }

  /** The hardware's view of a well-formed page table is the partial map of its leaves. */
  lemma TranslateIsLookup(m: Mem, sp: Space, va: nat)
    requires WF(m, sp) && va < MAXVA
    ensures Translate(m, sp.RootPage(), 2, va) == Lookup(sp.leaf, va / 4096)
  {
    TranslateFrom(m, sp, 2, va);
  }
}
