/** Scans of a page table: vmprint's dfs (vm.c) and the accessed bits of pgaccss (proc.c) of lab page tables. */
module Scans {
  import opened Riscv
  import opened PhysMem
  import opened Kalloc
  import opened PageTable
  import opened Vm
  import opened Uvm
  import opened ProcPages
  import opened Division
  import UserIo

  // ----- dfs -----

  // One printed line: the depth of the table it belongs to, the index and the entry.
  datatype Line = Line(depth: int, index: nat, pte: nat)

  /**
   * The lines for the first `n` slots of table `id`: one for each child table, followed by the lines
   * of that table, and one for each leaf.
   */
  function Dump(sp: Space, id: NodeId, n: nat): seq<Line>
    decreases id.level, n
  {
    if n == 0 then []
    else
      var i := n - 1;
      Dump(sp, id, i) +
      if id.level > 0 then
        if sp.Child(id, i) in sp.nodes
        then [Line(2 - id.level, i, sp.Entry(id, i))] + Dump(sp, sp.Child(id, i), 512)
        else []
      else if id.key * 512 + i in sp.leaf then [Line(2, i, sp.Entry(id, i))]
      else []
  }

  // The place of a line in the listing: 3 * v + depth, where v is the first page number of its entry.

  /** The places of the lines of `Dump`, in the order of the lines. */
  function DumpPlaces(sp: Space, id: NodeId, n: nat): seq<nat>
    decreases id.level, n
  {
    if n == 0 then []
    else
      var i := n - 1;
      DumpPlaces(sp, id, i) +
      if id.level > 0 then
        if sp.Child(id, i) in sp.nodes && id.level <= 2
        then [3 * First(id.level, id.key * 512 + i) + (2 - id.level)] + DumpPlaces(sp, sp.Child(id, i), 512)
        else []
      else if id.key * 512 + i in sp.leaf then [3 * (id.key * 512 + i) + 2]
      else []
  }

  /** The first page number with index prefix `q` at `level`. */
  function First(level: nat, q: nat): nat {
    if level == 0 then q else if level == 1 then q * 512 else q * 0x4_0000
  }

  /** The index prefix of page number `v` at `level`. */
  function Prefix(v: nat, level: nat): nat {
    if level == 0 then v else Prefix(v, level - 1) / 512
  }

  /** Page number `v` lies below one of the first `n` slots of node `id`. */
  predicate InSlots(v: nat, id: NodeId, n: nat) {
    id.key * 512 <= Prefix(v, id.level) < id.key * 512 + n
  }

  /** vmprint has a line at `place`: a mapped page, a lowest table, or a table above these. */
  predicate Listed(sp: Space, place: nat) {
    var v := place / 3;
    if place % 3 == 2 then v in sp.leaf
    else if place % 3 == 1 then v % 512 == 0 && NodeId(0, v / 512) in sp.nodes
    else v % 0x4_0000 == 0 && NodeId(1, v / 0x4_0000) in sp.nodes
  }

  /** The line: depth, index in the table it belongs to, and the entry there. */
  function LineAt(sp: Space, place: nat): Line {
    var v := place / 3;
    if place % 3 == 2 then Line(2, v % 512, LeafPte(sp.leaf, v))
    else if place % 3 == 1 then Line(1, v / 512 % 512, sp.Entry(NodeId(1, v / 0x4_0000), v / 512 % 512))
    else Line(0, v / 0x4_0000, sp.Entry(Root, v / 0x4_0000))
  }

  /** `places` are those below the first `n` slots of `id`, in increasing order. */
  ghost predicate Lists(sp: Space, id: NodeId, n: nat, places: seq<nat>) {
    && (forall i, j | 0 <= i < j < |places| :: places[i] < places[j])
    && (forall x: nat :: x in places <==> Listed(sp, x) && InSlots(x / 3, id, n) && 2 <= x % 3 + id.level)
  }

  /** `log` has the lines of `places`. */
  ghost predicate Prints(sp: Space, places: seq<nat>, log: seq<Line>) {
    |log| == |places| && forall i | 0 <= i < |log| :: log[i] == LineAt(sp, places[i])
  }

  lemma {:induction false} PrefixMonotone(u: nat, v: nat, level: nat)
    requires Prefix(u, level) < Prefix(v, level)
    ensures u < v
  {
    if level > 0 {
      PrefixMonotone(u, v, level - 1);
    }
  }

  /** The slots of a child are what lies below one slot of its parent. */
  lemma ChildSlots(sp: Space, id: NodeId, i: nat, v: nat)
    requires id.level > 0
    ensures InSlots(v, sp.Child(id, i), 512) <==> Prefix(v, id.level) == id.key * 512 + i
  {
    var p := Prefix(v, id.level - 1);
    assert p == p / 512 * 512 + p % 512;
  }

  /** The first page number of a slot comes first of those below it. */
  lemma FirstIs(level: nat, q: nat, v: nat)
    requires level <= 2
    ensures Prefix(First(level, q), level) == q
    ensures Prefix(v, level) == q ==> First(level, q) <= v
    ensures Prefix(v, level) < q ==> v < First(level, q)
  {
    assert Prefix(v, 1) == v / 512;
    assert Prefix(v, 2) == v / 512 / 512;
    assert Prefix(First(level, q), 1) == First(level, q) / 512;
    assert Prefix(First(level, q), 2) == First(level, q) / 512 / 512;
  }

  /** The place of the line for slot `i` of a table, and only that place at its depth. */
  lemma PlaceOf(sp: Space, id: NodeId, i: nat, x: nat)
    requires 0 < id.level <= 2 && x % 3 == 2 - id.level && Prefix(x / 3, id.level) == id.key * 512 + i
    ensures Listed(sp, x) <==> x == 3 * First(id.level, id.key * 512 + i) + (2 - id.level) && sp.Child(id, i) in sp.nodes
  {
    var v := x / 3;
    assert Prefix(v, 1) == v / 512 && Prefix(v, 2) == v / 512 / 512;
    assert x == 3 * v + x % 3;
  }

  /** The line of slot `i` follows those of the earlier slots, and those of its table follow it. */
  lemma ListsChild(sp: Space, id: NodeId, i: nat, places: seq<nat>, sub: seq<nat>)
    requires 0 < id.level <= 2 && Lists(sp, id, i, places) && sp.Child(id, i) in sp.nodes && Lists(sp, sp.Child(id, i), 512, sub)
    ensures Lists(sp, id, i + 1, places + ([3 * First(id.level, id.key * 512 + i) + (2 - id.level)] + sub))
  {
    var q := id.key * 512 + i;
    var place := 3 * First(id.level, q) + (2 - id.level);
    hide Listed;
    hide First;
    hide Prefix;
    forall b | b in sub ensures place < b {
      ChildSlots(sp, id, i, b / 3);
      FirstIs(id.level, q, b / 3);
    }
    forall a | a in places ensures a < place {
      FirstIs(id.level, q, a / 3);
    }
    Increasing([place], sub);
    Increasing(places, [place] + sub);
    forall x: nat ensures x in places + ([place] + sub) <==> Listed(sp, x) && InSlots(x / 3, id, i + 1) && 2 <= x % 3 + id.level {
      ChildSlots(sp, id, i, x / 3);
      if Prefix(x / 3, id.level) == q && x % 3 == 2 - id.level {
        PlaceOf(sp, id, i, x);
      }
      FirstIs(id.level, q, 0);
      PlaceOf(sp, id, i, place);
    }
  }

  lemma Increasing(a: seq<nat>, b: seq<nat>)
    requires forall i, j | 0 <= i < j < |a| :: a[i] < a[j]
    requires forall i, j | 0 <= i < j < |b| :: b[i] < b[j]
    requires forall u, v | u in a && v in b :: u < v
    ensures forall i, j | 0 <= i < j < |a + b| :: (a + b)[i] < (a + b)[j]
  {
    forall i, j | 0 <= i < j < |a + b| ensures (a + b)[i] < (a + b)[j] {
      if i < |a| <= j {
        assert a[i] in a && b[j - |a|] in b;
      }
    }
  }

  /** Nothing is listed below a slot without a node. */
  lemma ListsAbsent(sp: Space, id: NodeId, i: nat, places: seq<nat>)
    requires sp.Shape() && id in sp.nodes && 0 < id.level <= 2 && sp.Child(id, i) !in sp.nodes && Lists(sp, id, i, places)
    ensures Lists(sp, id, i + 1, places)
  {
    hide GoodLeaf;
    forall x: nat | Listed(sp, x) && 2 <= x % 3 + id.level ensures Prefix(x / 3, id.level) != id.key * 512 + i {
      ListedPath(sp, x, id.level);
    }
  }

  /** The node below which a line lies exists. */
  lemma ListedPath(sp: Space, x: nat, level: nat)
    requires sp.Shape() && Listed(sp, x) && 0 < level <= 2 && 2 <= x % 3 + level
    ensures NodeId(level - 1, Prefix(x / 3, level)) in sp.nodes
  {
    hide GoodLeaf;
    var v := x / 3;
    assert Prefix(v, 1) == v / 512 && Prefix(v, 2) == v / 512 / 512 == v / 0x4_0000;
    if x % 3 == 2 {
      LeafPath(sp, v, level - 1);
    } else if x % 3 == 1 && level == 2 {
      assert Parent(NodeId(0, v / 512)) == NodeId(1, v / 512 / 512);
    }
  }

  /** The nodes on the path of a mapped page number exist. */
  lemma LeafPath(sp: Space, v: nat, level: nat)
    requires sp.Shape() && v in sp.leaf && level < 2
    ensures NodeId(level, Prefix(v, level + 1)) in sp.nodes
  {
    hide GoodLeaf;
    assert Prefix(v, 1) == v / 512;
    if level == 1 {
      assert Parent(NodeId(0, v / 512)) in sp.nodes;
    }
  }

  /** At the lowest level a slot is a page number. */
  lemma ListsLeaf(sp: Space, id: NodeId, i: nat, places: seq<nat>)
    requires id.level == 0 && Lists(sp, id, i, places)
    ensures Lists(sp, id, i + 1, if id.key * 512 + i in sp.leaf then places + [3 * (id.key * 512 + i) + 2] else places)
  {
    var v := id.key * 512 + i;
    forall x: nat | x % 3 == 2 ensures x / 3 == v <==> x == 3 * v + 2 {
    }
    if v in sp.leaf {
      Increasing(places, [3 * v + 2]);
    }
  }

  /** The entry that dfs finds in slot `i` of a table. */
  lemma SlotKind(k: Kmem, sp: Space, id: NodeId, i: nat)
    requires Tree(k, sp) && id in sp.nodes && i < 512
    ensures var w := sp.Entry(id, i);
      && (id.level > 0 ==>
            if sp.Child(id, i) in sp.nodes then V(w) && !R(w) && !W(w) && !X(w) && Pte2Pa(w) == sp.nodes[sp.Child(id, i)] * 4096
            else !V(w))
      && (id.level == 0 ==>
            && w == LeafPte(sp.leaf, id.key * 512 + i)
            && if id.key * 512 + i in sp.leaf then V(w) && (R(w) || X(w)) else !V(w))
  {
    hide V;
    hide R;
    hide W;
    hide X;
    hide Tree;
    hide GoodLeaf;
    ZeroInvalid();
    if id.level > 0 {
      if sp.Child(id, i) in sp.nodes {
        EncodedNode(sp.nodes[sp.Child(id, i)]);
      }
    } else if id.key * 512 + i in sp.leaf {
      LeafNode(k, sp, id.key * 512 + i);
      EncodedLeaf(sp.leaf[id.key * 512 + i]);
    }
  }

  /** `pagetable[i]` */
  method LoadSlot(k: Kmem, pagetable: nat, i: nat, ghost id: NodeId, ghost sp: Space) returns (pte: nat)
    requires Tree(k, sp) && id in sp.nodes && pagetable == sp.nodes[id] * 4096 && i < 512
    ensures pte == sp.Entry(id, i)
  {
    hide Word;
    NodeInMem(k, sp, id);
    assert Holds(k.mem, sp, id);
    WordAddrParts(pagetable / 4096, i);
    pte := k.Load(WordAddr(pagetable / 4096, i));
  }

  /** dfs on the table of node `id` prints exactly the lines of `Dump`. */
  method Dfs(k: Kmem, pagetable: nat, depth: nat, ghost id: NodeId, ghost sp: Space) returns (log: seq<Line>)
    requires Tree(k, sp) && id in sp.nodes && pagetable == sp.nodes[id] * 4096 && id.level + depth == 2
    ensures log == Dump(sp, id, 512)
    decreases id.level
  {
    hide Tree;
    hide Word;
    hide V;
    hide R;
    hide W;
    hide X;
    hide Space.Entry;
    log := [];
    var i := 0;
    while i < 512
      invariant 0 <= i <= 512
      invariant log == Dump(sp, id, i)
    {
      var pte := LoadSlot(k, pagetable, i, id, sp);
      SlotKind(k, sp, id, i);
      if V(pte) && !R(pte) && !W(pte) && !X(pte) {
        var sub := Dfs(k, Pte2Pa(pte), depth + 1, sp.Child(id, i), sp);
        log := log + ([Line(depth, i, pte)] + sub);
      } else if V(pte) {
        log := log + [Line(depth, i, pte)];
      }
      i := i + 1;
    }
  }

  /** Lines and places go together, in increasing order, and none is left out. */
  lemma {:induction false} DumpLists(k: Kmem, sp: Space, id: NodeId, n: nat)
    requires Tree(k, sp) && id in sp.nodes && n <= 512
    ensures Lists(sp, id, n, DumpPlaces(sp, id, n)) && Prints(sp, DumpPlaces(sp, id, n), Dump(sp, id, n))
    decreases id.level, n
  {
    hide Lists;
    hide Prints;
    hide LineAt;
    hide First;
    hide Space.Entry;
    hide Tree;
    NodeLevel(k, sp, id);
    if n == 0 {
      NoSlots(sp, id);
    } else {
      var i := n - 1;
      DumpLists(k, sp, id, i);
      SlotKind(k, sp, id, i);
      if id.level > 0 {
        if sp.Child(id, i) in sp.nodes {
          DumpLists(k, sp, sp.Child(id, i), 512);
          TableLine(k, sp, id, i);
          ChildLines(sp, id, i);
        } else {
          ListsAbsent(sp, id, i, DumpPlaces(sp, id, i));
          assert DumpPlaces(sp, id, n) == DumpPlaces(sp, id, i) && Dump(sp, id, n) == Dump(sp, id, i);
        }
      } else {
        LeafLines(sp, id, i);
      }
    }
  }

  lemma NodeLevel(k: Kmem, sp: Space, id: NodeId)
    requires Tree(k, sp) && id in sp.nodes
    ensures sp.Shape() && id.level <= 2
  {
  }

  lemma NoSlots(sp: Space, id: NodeId)
    ensures Lists(sp, id, 0, []) && Prints(sp, [], [])
  {
  }

  lemma PrintsCat(sp: Space, a: seq<nat>, b: seq<nat>, c: seq<Line>, d: seq<Line>)
    requires Prints(sp, a, c) && Prints(sp, b, d)
    ensures Prints(sp, a + b, c + d)
  {
  }

  lemma ChildLines(sp: Space, id: NodeId, i: nat)
    requires 0 < id.level <= 2 && sp.Child(id, i) in sp.nodes
    requires Lists(sp, id, i, DumpPlaces(sp, id, i)) && Prints(sp, DumpPlaces(sp, id, i), Dump(sp, id, i))
    requires var c := sp.Child(id, i); Lists(sp, c, 512, DumpPlaces(sp, c, 512)) && Prints(sp, DumpPlaces(sp, c, 512), Dump(sp, c, 512))
    requires Prints(sp, [3 * First(id.level, id.key * 512 + i) + (2 - id.level)], [Line(2 - id.level, i, sp.Entry(id, i))])
    ensures Lists(sp, id, i + 1, DumpPlaces(sp, id, i + 1)) && Prints(sp, DumpPlaces(sp, id, i + 1), Dump(sp, id, i + 1))
  {
    hide Lists;
    hide Prints;
    hide First;
    hide Space.Entry;
    var c, place, line := sp.Child(id, i), 3 * First(id.level, id.key * 512 + i) + (2 - id.level), Line(2 - id.level, i, sp.Entry(id, i));
    ListsChild(sp, id, i, DumpPlaces(sp, id, i), DumpPlaces(sp, c, 512));
    PrintsCat(sp, [place], DumpPlaces(sp, c, 512), [line], Dump(sp, c, 512));
    PrintsCat(sp, DumpPlaces(sp, id, i), [place] + DumpPlaces(sp, c, 512), Dump(sp, id, i), [line] + Dump(sp, c, 512));
  }

  lemma LeafLines(sp: Space, id: NodeId, i: nat)
    requires id.level == 0 && i < 512 && sp.Entry(id, i) == LeafPte(sp.leaf, id.key * 512 + i)
    requires Lists(sp, id, i, DumpPlaces(sp, id, i)) && Prints(sp, DumpPlaces(sp, id, i), Dump(sp, id, i))
    ensures Lists(sp, id, i + 1, DumpPlaces(sp, id, i + 1)) && Prints(sp, DumpPlaces(sp, id, i + 1), Dump(sp, id, i + 1))
  {
    hide Lists;
    hide Prints;
    hide Space.Entry;
    hide LeafPte;
    var v := id.key * 512 + i;
    ListsLeaf(sp, id, i, DumpPlaces(sp, id, i));
    if v in sp.leaf {
      LeafLine(sp, v, i);
      PrintsCat(sp, DumpPlaces(sp, id, i), [3 * v + 2], Dump(sp, id, i), [Line(2, i, sp.Entry(id, i))]);
    } else {
      assert DumpPlaces(sp, id, i + 1) == DumpPlaces(sp, id, i) && Dump(sp, id, i + 1) == Dump(sp, id, i);
    }
  }

  lemma TableLine(k: Kmem, sp: Space, id: NodeId, i: nat)
    requires Tree(k, sp) && id in sp.nodes && 0 < id.level && i < 512
    ensures id.level <= 2 && Prints(sp, [3 * First(id.level, id.key * 512 + i) + (2 - id.level)], [Line(2 - id.level, i, sp.Entry(id, i))])
  {
    hide Space.Entry;
    hide Holds;
    hide GoodLeaf;
    var q := id.key * 512 + i;
    var place := 3 * First(id.level, q) + (2 - id.level);
    assert place / 3 == First(id.level, q) && place % 3 == 2 - id.level;
    KeySlot(id.key, i);
    if id.level == 1 {
      assert q * 512 / 512 == q && q * 512 / 0x4_0000 == q / 512;
    } else {
      assert id == Root && q * 0x4_0000 / 0x4_0000 == q;
    }
  }

  lemma LeafLine(sp: Space, v: nat, i: nat)
    requires v % 512 == i
    ensures Prints(sp, [3 * v + 2], [Line(2, i, LeafPte(sp.leaf, v))])
  {
    assert (3 * v + 2) / 3 == v;
  }

  /**
   * vmprint: one line for each table below the root and each mapped page, in increasing order of the
   * first address, a table before what it holds.
   */
  method VmPrint(k: Kmem, pagetable: nat, ghost sp: Space) returns (log: seq<Line>, ghost places: seq<nat>)
    requires Tree(k, sp) && pagetable == sp.RootPage() * 4096
    ensures log == Dump(sp, Root, 512)
    ensures |log| == |places| && forall i | 0 <= i < |log| :: log[i] == LineAt(sp, places[i])
    ensures forall i, j | 0 <= i < j < |places| :: places[i] < places[j]
    ensures forall x: nat :: x in places <==> Listed(sp, x)
  {
    hide Dump;
    hide DumpPlaces;
    hide LineAt;
    RootNode(k, sp);
    log := Dfs(k, pagetable, 0, Root, sp);
    places := DumpPlaces(sp, Root, 512);
    DumpLists(k, sp, Root, 512);
    forall x: nat | Listed(sp, x) ensures InSlots(x / 3, Root, 512) {
      AllSlots(k, sp, x);
    }
  }

  lemma AllSlots(k: Kmem, sp: Space, x: nat)
    requires Tree(k, sp) && Listed(sp, x)
    ensures InSlots(x / 3, Root, 512)
  {
    hide Holds;
    hide GoodLeaf;
    ListedPath(sp, x, 2);
    var v := x / 3;
    assert Prefix(v, 1) == v / 512 && Prefix(v, 2) == v / 512 / 512;
    assert Parent(NodeId(1, v / 512 / 512)) == NodeId(2, v / 512 / 512 / 512);
  }

  // ----- accessed bits -----

  const PTE_A: nat := 64

  /** `pte & PTE_A` */
  predicate A(pte: nat) { Half(pte) / 32 % 2 == 1 }

  /** Bit 6. */
  lemma AccessedBit(pte: nat)
    ensures A(pte) <==> pte / 64 % 2 == 1
  {
    Shifts(pte);
    ShiftOne(pte / 16, 32);
    ShiftOne(pte / 32, 16);
    LowBit(pte / 64, 8);
    assert Half(pte) / 32 == Half(pte) / 2 / 2 / 2 / 2 / 2;
    hide Half;
  }

  function Pow2(n: nat): (r: nat)
    ensures r > 0
  {
    if n == 0 then 1 else 2 * Pow2(n - 1)
  }

  lemma PowersOfTwo()
    ensures Pow2(0) == 1 && Pow2(8) == 0x100 && Pow2(31) == 0x8000_0000
  {
    assert Pow2(8) == 0x100;
    assert Pow2(16) == 0x1_0000;
    assert Pow2(24) == 0x100_0000;
  }

  /** Bit `i` of a mask. */
  predicate Bit(mask: nat, i: nat) { mask / Pow2(i) % 2 == 1 }

  predicate PageAccessed(leaf: map<nat, Leaf>, v: nat) {
    v in leaf && A(leaf[v].flags)
  }

  /** The mask of the accessed pages among [v, v + n), bit i for page v + i. */
  function AccessMask(leaf: map<nat, Leaf>, v: nat, n: nat): nat {
    if n == 0 then 0
    else AccessMask(leaf, v, n - 1) + if PageAccessed(leaf, v + n - 1) then Pow2(n - 1) else 0
  }

  function Unaccessed(l: Leaf): Leaf {
    if A(l.flags) && PTE_A <= l.flags then l.(flags := l.flags - PTE_A) else l
  }

  /** The leaf map with the accessed bits of pages [v, v + n) cleared. */
  function ClearRange(leaf: map<nat, Leaf>, v: nat, n: nat): map<nat, Leaf> {
    map u | u in leaf :: if v <= u < v + n then Unaccessed(leaf[u]) else leaf[u]
  }

  /** The lower bits of a number whose bit 5 is set stay when that bit is cleared. */
  lemma LowBits(h: nat)
    requires h / 32 % 2 == 1
    ensures 32 <= h && (h - 32) / 32 % 2 == 0 && (h - 32) % 2 == h % 2 && (h - 32) / 2 % 2 == h / 2 % 2
    ensures (h - 32) / 2 / 2 % 2 == h / 2 / 2 % 2 && (h - 32) / 2 / 2 / 2 % 2 == h / 2 / 2 / 2 % 2
  {
    assert (h - 32) / 2 == h / 2 - 16;
    assert (h / 2 - 16) / 2 == h / 2 / 2 - 8;
    assert (h / 2 / 2 - 8) / 2 == h / 2 / 2 / 2 - 4;
  }

  lemma HalfMinus(f: nat)
    requires 64 <= f < 1024
    ensures Half(f - 64) == Half(f) - 32
  {
  }

  lemma ClearedFlags(f: nat)
    requires f < 1024 && A(f)
    ensures PTE_A <= f && !A(f - PTE_A) && V(f - PTE_A) == V(f)
    ensures R(f - PTE_A) == R(f) && W(f - PTE_A) == W(f) && X(f - PTE_A) == X(f) && U(f - PTE_A) == U(f)
  {
    LowBits(Half(f));
    assert f >= 2 * Half(f);
    HalfMinus(f);
    hide Half;
  }

  lemma Pow2Split(i: nat, n: nat)
    requires i < n
    ensures Pow2(n) == Pow2(i) * (2 * Pow2(n - i - 1)) && Pow2(i) > 0
  {
    if i > 0 {
      Pow2Split(i - 1, n - 1);
    }
  }

  lemma {:induction false} MaskBound(leaf: map<nat, Leaf>, v: nat, n: nat)
    ensures AccessMask(leaf, v, n) < Pow2(n)
  {
    if n > 0 {
      MaskBound(leaf, v, n - 1);
    }
  }

  /** Adding a higher power of two leaves bit `i` alone. */
  lemma BitBelow(mask: nat, i: nat, n: nat)
    requires i < n
    ensures Bit(mask + Pow2(n), i) == Bit(mask, i)
  {
    Pow2Split(i, n);
    var p, q := Pow2(i), Pow2(n - i - 1);
    assert mask + Pow2(n) == mask + p * (2 * q);
    DivShift(mask, p, 2 * q);
    assert (mask / p + 2 * q) % 2 == mask / p % 2;
  }

  lemma DivShift(x: nat, p: nat, q: nat)
    requires p > 0
    ensures (x + p * q) / p == x / p + q
  {
    assert x + p * q == p * (x / p + q) + x % p;
    QuotientIs(x + p * q, p, x / p + q, x % p);
  }

  /** Bit i of the mask says whether page v + i was accessed, and there are no other bits. */
  lemma {:induction false} MaskBits(leaf: map<nat, Leaf>, v: nat, n: nat, i: nat)
    ensures Bit(AccessMask(leaf, v, n), i) <==> i < n && PageAccessed(leaf, v + i)
  {
    hide Bit;
    hide Pow2;
    hide PageAccessed;
    if n > 0 {
      MaskBound(leaf, v, n - 1);
      MaskBits(leaf, v, n - 1, i);
      if i < n - 1 {
        BitBelow(AccessMask(leaf, v, n - 1), i, n - 1);
      } else if i == n - 1 {
        TopBit(AccessMask(leaf, v, n - 1), n - 1);
      } else {
        MaskBound(leaf, v, n);
        NoBit(AccessMask(leaf, v, n), n, i);
      }
    } else {
      NoBit(0, 0, i);
    }
  }

  lemma TopBit(mask: nat, n: nat)
    requires mask < Pow2(n)
    ensures !Bit(mask, n) && Bit(mask + Pow2(n), n)
  {
    DivShift(mask, Pow2(n), 1);
    QuotientIs(mask, Pow2(n), 0, mask);
  }

  lemma NoBit(mask: nat, n: nat, i: nat)
    requires mask < Pow2(n) && n <= i
    ensures !Bit(mask, i)
  {
    if n < i {
      Pow2Split(n, i);
      MulLarge(Pow2(n), 2 * Pow2(i - n - 1));
    }
    QuotientIs(mask, Pow2(i), 0, mask);
  }

  /** After the bits are cleared a second scan reports none. */
  lemma {:induction false} SecondScan(leaf: map<nat, Leaf>, v: nat, n: nat, m: nat)
    requires n <= m && forall u | u in leaf :: GoodLeaf(leaf[u])
    ensures AccessMask(ClearRange(leaf, v, m), v, n) == 0
  {
    if n > 0 {
      SecondScan(leaf, v, n - 1, m);
      var u := v + n - 1;
      if u in leaf && A(leaf[u].flags) {
        ClearedFlags(leaf[u].flags);
      }
    }
  }

  lemma ClearStep(leaf: map<nat, Leaf>, v: nat, i: nat)
    ensures ClearRange(leaf, v, 0) == leaf
    ensures ClearRange(leaf, v, i + 1) ==
      if v + i in leaf then ClearRange(leaf, v, i)[v + i := Unaccessed(leaf[v + i])] else ClearRange(leaf, v, i)
  {
  }

  /** Page by page: the frame stays, and bit 6 of the flags, alone, is cleared in the range. */
  lemma ClearRangeIs(leaf: map<nat, Leaf>, v: nat, n: nat)
    requires forall u | u in leaf :: leaf[u].flags < 1024
    ensures ClearRange(leaf, v, n).Keys == leaf.Keys
    ensures forall u: nat | u in leaf ::
      && ClearRange(leaf, v, n)[u].frame == leaf[u].frame
      && ClearRange(leaf, v, n)[u].flags == leaf[u].flags - if v <= u < v + n && leaf[u].flags / 64 % 2 == 1 then 64 else 0
  {
  }

  lemma NoFlags()
    ensures !A(0)
  {
  }

  lemma LeafBits(k: Kmem, sp: Space, v: nat)
    requires Tree(k, sp)
    ensures A(LeafPte(sp.leaf, v)) <==> PageAccessed(sp.leaf, v)
    ensures PageAccessed(sp.leaf, v) ==>
      && GoodLeaf(Unaccessed(sp.leaf[v])) && v < MAXVPN
      && LeafPte(sp.leaf, v) - PTE_A == Encode(Unaccessed(sp.leaf[v])) && Unaccessed(sp.leaf[v]).frame == sp.leaf[v].frame
  {
    hide Half;
    hide V;
    hide Tree;
    NoFlags();
    if v in sp.leaf {
      var l := sp.leaf[v];
      LeafNode(k, sp, v);
      Split(l.frame, l.flags);
      if A(l.flags) {
        ClearedFlags(l.flags);
      }
    }
  }

  /**
   * The scan of pgaccss over `npgs` pages from `buf`: the mask reports which had their accessed bit
   * set, exactly those bits are cleared, and nothing else about the address space changes.
   */
  method ScanAccessed(k: Kmem, root: nat, buf: nat, npgs: int, ghost sp: Space) returns (bitmask: nat, ghost sp': Space)
    requires Tree(k, sp) && root == sp.RootPage() * 4096
    requires npgs <= 31 && (npgs > 0 ==> buf + npgs * 4096 <= MAXVA)
    requires TablesAt(sp, buf / 4096, buf / 4096 + npgs)
    modifies k
    ensures Tree(k, sp') && k.free == old(k.free) && Same(old(k.mem), k.mem, sp.NodePages())
    ensures npgs <= 0 ==> bitmask == 0 && sp' == sp
    ensures npgs > 0 ==>
      && bitmask == AccessMask(sp.leaf, buf / 4096, npgs)
      && sp' == sp.(leaf := ClearRange(sp.leaf, buf / 4096, npgs))
  {
    hide Tree;
    hide A;
    hide ClearRange;
    hide WordAddr;
    ghost var v := buf / 4096;
    bitmask, sp' := 0, sp;
    var track := buf;
    var i := 0;
    ClearStep(sp.leaf, v, 0);
    while i < npgs
      invariant 0 <= i && (i <= npgs || i == 0) && track == buf + i * 4096
      invariant Tree(k, sp') && sp' == sp.(leaf := ClearRange(sp.leaf, v, i))
      invariant bitmask == AccessMask(sp.leaf, v, i)
      invariant k.free == old(k.free) && Same(old(k.mem), k.mem, sp.NodePages())
    {
      assert track / 4096 == v + i && HasTable(sp, v + i);
      ClearStep(sp.leaf, v, i);
      bitmask, sp' := ScanOne(k, root, track, i, bitmask, v, sp, sp');
      track := track + 4096;
      i := i + 1;
    }
  }

  /** One turn of the loop of pgaccss. */
  method ScanOne(k: Kmem, root: nat, track: nat, i: nat, mask: nat, ghost v: nat, ghost sp0: Space, ghost sp: Space)
    returns (bitmask: nat, ghost sp': Space)
    requires Tree(k, sp) && root == sp.RootPage() * 4096 && track < MAXVA && track / 4096 == v + i
    requires HasTable(sp, v + i)
    requires sp == sp0.(leaf := ClearRange(sp0.leaf, v, i)) && mask == AccessMask(sp0.leaf, v, i)
    modifies k
    ensures Tree(k, sp') && k.free == old(k.free) && Same(old(k.mem), k.mem, sp.NodePages())
    ensures bitmask == AccessMask(sp0.leaf, v, i + 1)
    ensures sp' == sp.(leaf := if v + i in sp0.leaf then sp.leaf[v + i := Unaccessed(sp0.leaf[v + i])] else sp.leaf)
  {
    hide Tree;
    hide A;
    hide WordAddr;
    ghost var u := v + i;
    assert u in sp.leaf <==> u in sp0.leaf;
    assert u in sp.leaf ==> sp.leaf[u] == sp0.leaf[u];
    var pte;
    pte, sp' := Walk(k, root, track, false, sp);
    var w := LoadEntry(k, pte, u, sp);
    LeafBits(k, sp, u);
    bitmask := mask;
    if A(w) {
      bitmask := mask + Pow2(i);
      sp' := StoreEntry(k, pte, u, Unaccessed(sp.leaf[u]), w - PTE_A, sp);
    } else if u in sp.leaf {
      assert sp.leaf[u := sp.leaf[u]] == sp.leaf;
    }
  }

  /** The address space of a process of lab page tables: user pages, and the three fixed ones. */
  ghost predicate ThreePages(sp: Space, sz: nat, trampoline: nat, trapframe: nat, usysro: nat) {
    && sz <= USYSCALL
    && (forall v: nat :: v in sp.leaf <==> v < Pages(sz) || v in HighPages3(trampoline, trapframe, usysro))
    && (forall v: nat | v in HighPages3(trampoline, trapframe, usysro) :: sp.leaf[v] == HighPages3(trampoline, trapframe, usysro)[v])
  }

  /** copyin and copyout may run on such a process, whose fixed read-only page user code can access. */
  lemma ThreePagesAccess(k: Kmem, m: Mem, free: seq<nat>, sp: Space, sz: nat, trampoline: nat, trapframe: nat, usysro: nat)
    requires OwnsAt(k, m, free, sp) && ThreePages(sp, sz, trampoline, trapframe, usysro)
    requires k.Managed(usysro / 4096) && usysro / 4096 !in free && usysro / 4096 !in Owned(sp)
    ensures UserIo.UserPages(k, free, sp) && UserIo.Injective(sp.leaf)
    ensures var l := sp.leaf[0x3ff_fffd];
      l.frame == usysro / 4096 && l.flags / 16 % 2 == 1 && l.flags / 2 % 2 == 1 && l.flags / 4 % 2 == 0
    ensures usysro / 4096 in m ==> Readable(m, sp.leaf, 0x3ff_fffd)
    ensures !Writable(m, sp.leaf, 0x3ff_fffd)
  {
    hide WF;
    hide Owned;
    HighPages3Are(trampoline, trapframe, usysro);
    FlagBits(19);
    PagesHold(sz);
    HighPerms();
    var fixed := HighPages3(trampoline, trapframe, usysro);
    assert TRAMPOLINE_VPN in fixed && TRAPFRAME_VPN in fixed && USYSCALL_VPN in fixed;
    UserIo.SharedUserPage(k, m, free, sp, USYSCALL_VPN);
  }

  /** How often `for(i = 0; i < npgs; i++)` turns. */
  function Turns(npgs: int): nat {
    if npgs < 0 then 0 else npgs
  }

  /** The accessed bit changes neither frames nor what user code can access. */
  lemma ClearedAccess(k: Kmem, free: seq<nat>, sp: Space, sp': Space, v: nat, n: nat)
    requires sp.Shape() && UserIo.UserPages(k, free, sp) && sp' == sp.(leaf := ClearRange(sp.leaf, v, n))
    ensures UserIo.UserPages(k, free, sp') && (UserIo.Injective(sp.leaf) ==> UserIo.Injective(sp'.leaf))
  {
    hide Half;
    forall u | u in sp.leaf ensures sp'.leaf[u].frame == sp.leaf[u].frame && U(sp'.leaf[u].flags) == U(sp.leaf[u].flags) {
      assert GoodLeaf(sp.leaf[u]);
      if A(sp.leaf[u].flags) {
        ClearedFlags(sp.leaf[u].flags);
      }
    }
  }

  /**
   * pgaccss up to its error branch: the mask arrives at `btmsk` as a 64-bit word exactly when the
   * eight bytes there are writable.
   */
  method PgAccss(k: Kmem, root: nat, buf: nat, npgs: int, btmsk: nat, ghost sp: Space) returns (ok: bool, ghost sp': Space)
    requires Tree(k, sp) && UserIo.UserPages(k, k.free, sp) && UserIo.Injective(sp.leaf) && root == sp.RootPage() * 4096
    requires npgs <= 31 && (npgs > 0 ==> buf + npgs * 4096 <= MAXVA)
    requires TablesAt(sp, buf / 4096, buf / 4096 + npgs)
    modifies k
    ensures Tree(k, sp') && k.free == old(k.free)
    ensures sp' == sp.(leaf := ClearRange(sp.leaf, buf / 4096, Turns(npgs)))
    ensures ok <==> forall a: nat | btmsk <= a < btmsk + 8 :: Writable(k.mem, sp'.leaf, a / 4096)
    ensures ok ==> UserIo.In(k.mem, sp'.leaf, btmsk, 8) == (Bytes(AccessMask(sp.leaf, buf / 4096, Turns(npgs)), 8), 0)
  {
    hide Tree;
    hide ClearRange;
    hide AccessMask;
    hide UserIo.UserPages;
    hide UserIo.Out;
    hide UserIo.In;
    hide Bytes;
    ClearStep(sp.leaf, buf / 4096, 0);
    MaskStart(sp.leaf, buf / 4096);
    RootNode(k, sp);
    var bitmask;
    bitmask, sp' := ScanAccessed(k, root, buf, npgs, sp);
    ClearedAccess(k, k.free, sp, sp', buf / 4096, Turns(npgs));
    ghost var m: Mem, src := k.mem, Bytes(bitmask, 8);
    var r := UserIo.CopyOut(k, root, btmsk, Bytes(bitmask, 8), sp');
    UserIo.OutSucceeds(m, sp'.leaf, btmsk, src);
    UserIo.OutTouches(m, sp'.leaf, btmsk, src);
    ok := r == 0;
    SameWritable(m, k.mem, sp'.leaf, btmsk, btmsk + 8);
    if ok {
      UserIo.OutThenIn(m, sp'.leaf, btmsk, src);
    }
  }

  /** copyout keeps the set of pages, so whether it may write somewhere does not depend on it. */
  lemma SameWritable(m0: Mem, m1: Mem, leaf: map<nat, Leaf>, lo: nat, hi: nat)
    requires m0.Keys == m1.Keys
    ensures (forall a: nat | lo <= a < hi :: Writable(m0, leaf, a / 4096))
       <==> (forall a: nat | lo <= a < hi :: Writable(m1, leaf, a / 4096))
  {
    forall v: nat ensures Writable(m0, leaf, v) <==> Writable(m1, leaf, v) {
    }
  }

  lemma MaskStart(leaf: map<nat, Leaf>, v: nat)
    ensures AccessMask(leaf, v, 0) == 0
  {
  }
}
