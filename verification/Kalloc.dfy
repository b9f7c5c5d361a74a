/** The page allocator of lab system calls/kernel/kalloc.c. */
module Kalloc {
  import opened Riscv
  import opened PhysMem

  /**
   * Physical memory together with `kmem.freelist`, the head of a list threaded through
   * the first word of every free page.  `free` is the ghost list of free page numbers.
   */
  class Kmem {
    const end: nat       // first address after the kernel
    const physTop: nat   // PHYSTOP
    var mem: Mem
    var freelist: nat    // physical address of the first free page, 0 when there is none
    ghost var free: seq<nat>

    /** kfree accepts exactly the pages in [end, PHYSTOP). */
    predicate Managed(p: nat) {
      end <= p * 4096 < physTop
    }

    ghost predicate Valid()
      reads this
    {
      && 0 < end && physTop <= 0x100_0000_0000_0000
      && (forall p: nat | Managed(p) :: p in mem)
      && (forall p: nat | p in free :: Managed(p))
      && Chain(mem, freelist, free)
    }

    ghost function FreeSet(): set<nat>
      reads this
    {
      set p | p in free
    }

    constructor (end: nat, physTop: nat, mem: Mem)
      requires 0 < end && physTop <= 0x100_0000_0000_0000
      requires forall p: nat | end <= p * 4096 < physTop :: p in mem
      ensures Valid() && free == []
      ensures this.end == end && this.physTop == physTop && this.mem == mem
    {
      this.end, this.physTop, this.mem := end, physTop, mem;
      freelist, free := 0, [];
    }

    method Load(pa: nat) returns (w: nat)
      requires pa % 8 == 0 && pa / 4096 in mem
      ensures w == Word(mem[pa / 4096], pa % 4096 / 8)
    {
      w := Word(mem[pa / 4096], pa % 4096 / 8);
    }

    /** Store a 64-bit word into a page that is not on the free list. */
    method Store(pa: nat, w: nat)
      requires Valid()
      requires pa % 8 == 0 && pa / 4096 in mem && pa / 4096 !in free && w < 0x1_0000_0000_0000_0000
      modifies this`mem
      ensures Valid()
      ensures mem == old(mem)[pa / 4096 := SetWord(old(mem)[pa / 4096], pa % 4096 / 8, w)]
    {
      SetPage(pa / 4096, SetWord(mem[pa / 4096], pa % 4096 / 8, w));
    }

    /** memset(pa, v, PGSIZE) */
    method Memset(pa: nat, v: Byte)
      requires Valid()
      requires pa % 4096 == 0 && pa / 4096 in mem && pa / 4096 !in free
      modifies this`mem
      ensures Valid()
      ensures mem == old(mem)[pa / 4096 := Fill(v)]
    {
      SetPage(pa / 4096, Fill(v));
    }

    /** Replace the contents of a page that is not on the free list. */
    method SetPage(p: nat, page: Page)
      requires Valid() && p in mem && p !in free
      modifies this`mem
      ensures Valid()
      ensures mem == old(mem)[p := page]
    {
      ChainFrame(mem, mem[p := page], freelist, free);
      mem := mem[p := page];
    }

    /** kfree: overwrite the page with junk and push it. */
    method Kfree(pa: nat)
      requires Valid()
      requires pa % 4096 == 0 && Managed(pa / 4096) && pa / 4096 !in free
      modifies this
      ensures Valid()
      ensures free == [pa / 4096] + old(free) && freelist == pa
      ensures Same(old(mem), mem, {pa / 4096})
      ensures Word(mem[pa / 4096], 0) == old(freelist) && forall i | 8 <= i < 4096 :: mem[pa / 4096][i] == 1
    {
      var p := pa / 4096;
      var junk := Fill(1);
      assert free != [] ==> Managed(free[0]);
      PushChain(mem, freelist, free, p, junk);
      WordAddrParts(p, 0);
      mem := mem[p := SetWord(junk, 0, freelist)];
      freelist := pa;
      free := [p] + free;
    }

    /** kalloc: pop the first free page and fill it with junk; 0 when there is none. */
    method Kalloc() returns (pa: nat)
      requires Valid()
      modifies this
      ensures Valid()
      ensures pa == 0 <==> old(free) == []
      ensures old(free) == [] ==> free == [] && mem == old(mem)
      ensures old(free) != [] ==>
        && pa == old(free)[0] * 4096
        && pa % 4096 == 0 && pa / 4096 == old(free)[0]
        && free == old(free)[1..]
        && mem == old(mem)[old(free)[0] := Fill(5)]
        && forall i | 0 <= i < 4096 :: mem[pa / 4096][i] == 5
    {
      hide Chain;
      hide Word;
      pa := freelist;
      FreeHead(mem, freelist, free);
      assert free != [] ==> Managed(free[0]);
      if pa != 0 {
        PopChain(mem, freelist, free, Fill(5));
        WordAddrParts(free[0], 0);
        var p := pa / 4096;
        freelist := Load(pa);
        free := free[1..];
        mem := mem[p := Fill(5)];
      }
    }

    /** getbytes: the walk along the list ends, and counts each free page once, in 32-bit arithmetic. */
    method GetBytes() returns (nbytes: int)
      requires Valid()
      ensures nbytes == Int32(4096 * |free|)
      ensures -0x8000_0000 <= nbytes < 0x8000_0000 && (nbytes - 4096 * |free|) % 0x1_0000_0000 == 0
      ensures 4096 * |free| < 0x8000_0000 ==> nbytes == 4096 * |free|
    {
      hide Chain;
      hide Word;
      hide Int32;
      nbytes := 0;
      var kmfl := freelist;
      ghost var i := 0;
      FreeHead(mem, freelist, free);
      Int32Step(0);
      while kmfl != 0
        invariant 0 <= i <= |free| && kmfl == Link(free, i) && nbytes == Int32(4096 * i)
        decreases |free| - i
      {
        NextLink(mem, freelist, free, i);
        kmfl := Load(kmfl);
        Int32Step(4096 * i);
        nbytes := Int32(nbytes + 4096);
        i := i + 1;
      }
      assert i < |free| ==> Managed(free[i]);
      Int32Step(4096 * |free|);
      Int32Is(4096 * |free|);
    }

    /** freerange: every page in the range goes to the free list. */
    method FreeRange(paStart: nat, paEnd: nat)
      requires Valid() && paStart < 0x1_0000_0000_0000 && paEnd <= 0x100_0000_0000_0000
      requires forall p | p in PagesIn(paStart, paEnd) :: Managed(p) && p !in free
      modifies this
      ensures Valid()
      ensures FreeSet() == old(FreeSet()) + PagesIn(paStart, paEnd)
      ensures forall p: nat :: p in free <==> p in old(free) || (paStart <= p * 4096 && p * 4096 + 4096 <= paEnd)
    {
      hide Kmem.Valid;
      var p := PgRoundUp(paStart);
      ghost var done: set<nat> := {};
      while p + 4096 <= paEnd
        invariant Valid() && p % 4096 == 0 && PgRoundUp(paStart) <= p
        invariant done == set q: nat | q < paEnd && PgRoundUp(paStart) <= q * 4096 && q * 4096 + 4096 <= p
        invariant p <= paEnd || p == PgRoundUp(paStart)
        invariant FreeSet() == old(FreeSet()) + done && (forall q | q in free :: q in old(free) || q in done)
        decreases paEnd - p
      {
        NextPage(p, paStart, paEnd, done);
        ghost var before := free;
        Kfree(p);
        assert forall q :: q in free <==> q in before || q == p / 4096;
        done := done + {p / 4096};
        p := p + 4096;
      }
      assert done == PagesIn(paStart, paEnd);
      forall p: nat ensures p in PagesIn(paStart, paEnd) <==> paStart <= p * 4096 && p * 4096 + 4096 <= paEnd {
        WholePage(paStart, paEnd, p);
      }
      assert forall p: nat :: p in free <==> p in FreeSet();
    }
  }

  /** `n` in 32-bit two's complement. */
  function Int32(n: int): int {
    (n + 0x8000_0000) % 0x1_0000_0000 - 0x8000_0000
  }

  lemma Int32Step(n: nat)
    ensures Int32(Int32(n) + 4096) == Int32(n + 4096)
    ensures n < 0x8000_0000 ==> Int32(n) == n
  {
  }

  lemma Int32Is(n: nat)
    ensures -0x8000_0000 <= Int32(n) < 0x8000_0000 && (Int32(n) - n) % 0x1_0000_0000 == 0
  {
  }

  /** The i-th free page holds the address of the next. */
  lemma NextLink(m: Mem, head: nat, free: seq<nat>, i: nat)
    requires Chain(m, head, free) && Link(free, i) != 0
    ensures i < |free| && Link(free, i) == free[i] * 4096 && Link(free, i) / 4096 == free[i] && Link(free, i) % 4096 == 0
    ensures free[i] in m && Word(m[free[i]], 0) == Link(free, i + 1)
  {
    hide Word;
    WordAddrParts(free[i], 0);
  }

  /** The pages that lie entirely in [start, end), counted from the first page boundary. */
  ghost function PagesIn(start: nat, end: nat): set<nat> {
    set p: nat | p < end && PgRoundUp(start) <= p * 4096 && p * 4096 + 4096 <= end
  }

  lemma WholePage(start: nat, end: nat, p: nat)
    requires start < 0x1_0000_0000_0000
    ensures p in PagesIn(start, end) <==> start <= p * 4096 && p * 4096 + 4096 <= end
  {
    assert U64(start + 4095) == start + 4095;
  }

  lemma NextPage(p: nat, start: nat, end: nat, before: set<nat>)
    requires p % 4096 == 0 && PgRoundUp(start) <= p && p + 4096 <= end
    requires before == set q: nat | q < end && PgRoundUp(start) <= q * 4096 && q * 4096 + 4096 <= p
    ensures before + {p / 4096} == set q: nat | q < end && PgRoundUp(start) <= q * 4096 && q * 4096 + 4096 <= p + 4096
    ensures p / 4096 !in before && p / 4096 in PagesIn(start, end)
  {
  }

  /** Address of the i-th free page, 0 past the end. */
  function Link(free: seq<nat>, i: nat): nat {
    if i < |free| then free[i] * 4096 else 0
  }

  /** `head` starts a list of the distinct pages `free`, linked through their first words. */
  ghost predicate Chain(m: Mem, head: nat, free: seq<nat>) {
    && (forall i, j | 0 <= i < j < |free| :: free[i] != free[j])
    && head == Link(free, 0)
    && (forall i | 0 <= i < |free| :: free[i] in m && Word(m[free[i]], 0) == Link(free, i + 1))
  }

  /** The head of the list is 0 exactly when the list is empty, since page 0 is never free. */
  lemma FreeHead(m: Mem, head: nat, free: seq<nat>)
    requires Chain(m, head, free)
    ensures free == [] ==> head == 0
    ensures free != [] ==> head == free[0] * 4096
  {
  }

  lemma ChainHead(m: Mem, head: nat, free: seq<nat>)
    requires Chain(m, head, free) && free != []
    ensures head == free[0] * 4096 && free[0] !in free[1..] && free[0] in m
  {
  }

  lemma PopChain(m: Mem, head: nat, free: seq<nat>, junk: Page)
    requires Chain(m, head, free) && free != []
    ensures head == free[0] * 4096
    ensures Chain(m[free[0] := junk], Word(m[free[0]], 0), free[1..])
  {
    var rest := free[1..];
    forall i | 0 <= i < |rest|
      ensures rest[i] != free[0] && rest[i] in m && Word(m[rest[i]], 0) == Link(rest, i + 1)
    {
      assert rest[i] == free[i + 1];
    }
  }

  lemma PushChain(m: Mem, head: nat, free: seq<nat>, p: nat, junk: Page)
    requires Chain(m, head, free) && p !in free && head < 0x1_0000_0000_0000_0000
    ensures Chain(m[p := SetWord(junk, 0, head)], p * 4096, [p] + free)
  {
    WordsOfSetWord(junk, 0, head);
    var longer := [p] + free;
    forall i | 0 < i < |longer|
      ensures longer[i] in m && longer[i] != p && Word(m[longer[i]], 0) == Link(longer, i + 1)
    {
      assert longer[i] == free[i - 1];
    }
  }

  /** Pages distinct from the free ones may change without disturbing the list. */
  lemma ChainFrame(m: Mem, m': Mem, head: nat, free: seq<nat>)
    requires Chain(m, head, free)
    requires forall p | p in free :: p in m' && m'[p] == m[p]
    ensures Chain(m', head, free)
  {
    forall i | 0 <= i < |free|
      ensures free[i] in m' && Word(m'[free[i]], 0) == Link(free, i + 1)
    {
      assert free[i] in free;
    }
  }
}
