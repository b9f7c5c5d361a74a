/**
 * Moving bytes between the kernel and user memory: copyout, copyin and copyinstr
 * (lab page tables/kernel/vm.c).  The loops work a page at a time; the reference functions
 * below go byte by byte and stop at the first byte whose page is not accessible.
 */
module UserIo {
  import opened Riscv
  import opened PhysMem
  import opened Kalloc
  import opened PageTable
  import opened Vm
  import opened Uvm

  function ByteAt(m: Mem, leaf: map<nat, Leaf>, va: nat): Byte
    requires Readable(m, leaf, va / 4096)
  {
    m[leaf[va / 4096].frame][va % 4096]
  }

  function WriteByte(m: Mem, leaf: map<nat, Leaf>, va: nat, b: Byte): Mem
    requires Readable(m, leaf, va / 4096)
  {
    var f := leaf[va / 4096].frame;
    m[f := m[f][va % 4096 := b]]
  }

  /** copyout byte by byte: the memory afterwards and the return value. */
  function Out(m: Mem, leaf: map<nat, Leaf>, va: nat, src: seq<Byte>): (r: (Mem, int))
    decreases |src|
  {
    if src == [] then (m, 0)
    else if !Writable(m, leaf, va / 4096) then (m, -1)
    else Out(WriteByte(m, leaf, va, src[0]), leaf, va + 1, src[1..])
  }

  /** copyin byte by byte: the bytes delivered and the return value. */
  function In(m: Mem, leaf: map<nat, Leaf>, va: nat, len: nat): (seq<Byte>, int)
    decreases len
  {
    if len == 0 then ([], 0)
    else if !Readable(m, leaf, va / 4096) then ([], -1)
    else
      var (rest, r) := In(m, leaf, va + 1, len - 1);
      ([ByteAt(m, leaf, va)] + rest, r)
  }

  /** copyinstr byte by byte: the bytes delivered and the return value. */
  function InStr(m: Mem, leaf: map<nat, Leaf>, va: nat, max: nat): (seq<Byte>, int)
    decreases max
  {
    if max == 0 || !Readable(m, leaf, va / 4096) then ([], -1)
    else if ByteAt(m, leaf, va) == 0 then ([0], 0)
    else
      var (rest, r) := InStr(m, leaf, va + 1, max - 1);
      ([ByteAt(m, leaf, va)] + rest, r)
  }

  /** No two user page numbers share a frame. */
  ghost predicate Injective(leaf: map<nat, Leaf>) {
    forall u, v | u in leaf && v in leaf && U(leaf[u].flags) && U(leaf[v].flags) && u != v ::
      leaf[u].frame != leaf[v].frame
  }

  ghost function UserFrames(leaf: map<nat, Leaf>): set<nat> {
    set v | v in leaf && U(leaf[v].flags) :: leaf[v].frame
  }

  // ----- properties of the reference functions -----

  /** User access by bit number: bit 4 to read, bit 2 to write as well. */
  lemma AccessBits(m: Mem, leaf: map<nat, Leaf>, v: nat)
    ensures Readable(m, leaf, v) <==> v in leaf && leaf[v].flags / 16 % 2 == 1 && leaf[v].frame in m
    ensures Writable(m, leaf, v) <==> Readable(m, leaf, v) && leaf[v].flags / 4 % 2 == 1
  {
    if v in leaf {
      FlagBits(leaf[v].flags);
    }
  }

  /** copyout stores into frames of user pages only and keeps the set of pages. */
  lemma {:induction false} OutTouches(m: Mem, leaf: map<nat, Leaf>, va: nat, src: seq<Byte>)
    ensures Same(m, Out(m, leaf, va, src).0, UserFrames(leaf))
    decreases |src|
  {
    if src != [] && Writable(m, leaf, va / 4096) {
      assert leaf[va / 4096].frame in UserFrames(leaf);
      OutTouches(WriteByte(m, leaf, va, src[0]), leaf, va + 1, src[1..]);
    }
  }

  /** copyout succeeds exactly when every byte of the range lies on a writable user page. */
  lemma {:induction false} OutSucceeds(m: Mem, leaf: map<nat, Leaf>, va: nat, src: seq<Byte>)
    ensures Out(m, leaf, va, src).1 == 0 <==> forall a: nat | va <= a < va + |src| :: Writable(m, leaf, a / 4096)
    decreases |src|
  {
    if src != [] {
      if Writable(m, leaf, va / 4096) {
        var m' := WriteByte(m, leaf, va, src[0]);
        OutSucceeds(m', leaf, va + 1, src[1..]);
        assert forall v :: Writable(m', leaf, v) <==> Writable(m, leaf, v);
      } else {
        assert va <= va < va + |src|;
      }
    }
  }

  /** copyout stores what comes before the first byte it may not write, and returns -1 if there is one. */
  lemma {:induction false} OutStops(m: Mem, leaf: map<nat, Leaf>, va: nat, src: seq<Byte>, n: nat)
    requires n <= |src| && (n < |src| ==> !Writable(m, leaf, (va + n) / 4096))
    requires forall a: nat | va <= a < va + n :: Writable(m, leaf, a / 4096)
    ensures Out(m, leaf, va, src) == (Out(m, leaf, va, src[..n]).0, if n == |src| then 0 else -1)
    ensures Out(m, leaf, va, src[..n]).1 == 0
    decreases |src|
  {
    if n > 0 {
      assert Writable(m, leaf, va / 4096);
      var m' := WriteByte(m, leaf, va, src[0]);
      assert forall v :: Writable(m', leaf, v) <==> Writable(m, leaf, v);
      OutStops(m', leaf, va + 1, src[1..], n - 1);
      assert src[1..][..n - 1] == src[..n][1..];
    }
  }

  /** copyout leaves every user byte outside the target range alone. */
  lemma {:induction false} OutElsewhere(m: Mem, leaf: map<nat, Leaf>, va: nat, src: seq<Byte>, a: nat)
    requires Injective(leaf) && Readable(m, leaf, a / 4096) && !(va <= a < va + |src|)
    ensures Readable(Out(m, leaf, va, src).0, leaf, a / 4096)
    ensures ByteAt(Out(m, leaf, va, src).0, leaf, a) == ByteAt(m, leaf, a)
    decreases |src|
  {
    if src != [] && Writable(m, leaf, va / 4096) {
      var m' := WriteByte(m, leaf, va, src[0]);
      assert ByteAt(m', leaf, a) == ByteAt(m, leaf, a) by {
        if a / 4096 == va / 4096 {
          assert a % 4096 != va % 4096;
        }
      }
      OutElsewhere(m', leaf, va + 1, src[1..], a);
    }
  }

  /** copyin delivers the user bytes, one by one. */
  lemma {:induction false} InDelivers(m: Mem, leaf: map<nat, Leaf>, va: nat, len: nat, i: nat)
    requires i < |In(m, leaf, va, len).0|
    ensures Readable(m, leaf, (va + i) / 4096)
    ensures In(m, leaf, va, len).0[i] == m[leaf[(va + i) / 4096].frame][(va + i) % 4096]
    decreases len
  {
    if i > 0 {
      InDelivers(m, leaf, va + 1, len - 1, i - 1);
      assert va + 1 + (i - 1) == va + i;
    }
  }

  /** It stops at the end of the range, or with -1 at the first byte it may not read. */
  lemma {:induction false} InStops(m: Mem, leaf: map<nat, Leaf>, va: nat, len: nat)
    ensures var (s, r) := In(m, leaf, va, len);
      && |s| <= len && r == (if |s| == len then 0 else -1)
      && (|s| < len ==> !Readable(m, leaf, (va + |s|) / 4096))
    decreases len
  {
    if len > 0 && Readable(m, leaf, va / 4096) {
      InStops(m, leaf, va + 1, len - 1);
    }
  }

  /** copyin succeeds exactly when every byte of the range lies on a user page, and returns -1 otherwise. */
  lemma InSucceeds(m: Mem, leaf: map<nat, Leaf>, va: nat, len: nat)
    ensures In(m, leaf, va, len).1 == 0 <==> forall a: nat | va <= a < va + len :: Readable(m, leaf, a / 4096)
    ensures In(m, leaf, va, len).1 == 0 || In(m, leaf, va, len).1 == -1
  {
    InStops(m, leaf, va, len);
    var s := In(m, leaf, va, len).0;
    if |s| == len {
      forall a: nat | va <= a < va + len ensures Readable(m, leaf, a / 4096) {
        InDelivers(m, leaf, va, len, a - va);
        assert va + (a - va) == a;
      }
    }
  }

  /** After a successful copyout, copyin of the same range returns the same bytes. */
  lemma {:induction false} OutThenIn(m: Mem, leaf: map<nat, Leaf>, va: nat, src: seq<Byte>)
    requires Injective(leaf) && Out(m, leaf, va, src).1 == 0
    ensures In(Out(m, leaf, va, src).0, leaf, va, |src|) == (src, 0)
    decreases |src|
  {
    if src != [] {
      var m1 := WriteByte(m, leaf, va, src[0]);
      OutThenIn(m1, leaf, va + 1, src[1..]);
      OutElsewhere(m1, leaf, va + 1, src[1..], va);
      assert ByteAt(m1, leaf, va) == src[0];
      assert src == [src[0]] + src[1..];
    }
  }

  /** What copyin and copyinstr return depends on the user frames alone. */
  lemma {:induction false} InDependsOnFrames(m: Mem, m': Mem, leaf: map<nat, Leaf>, va: nat, len: nat)
    requires forall f | f in UserFrames(leaf) :: (f in m <==> f in m') && (f in m ==> m'[f] == m[f])
    ensures In(m', leaf, va, len) == In(m, leaf, va, len)
    ensures InStr(m', leaf, va, len) == InStr(m, leaf, va, len)
    decreases len
  {
    if len > 0 {
      if va / 4096 in leaf && U(leaf[va / 4096].flags) {
        assert leaf[va / 4096].frame in UserFrames(leaf);
      }
      InDependsOnFrames(m, m', leaf, va + 1, len - 1);
    }
  }

  /** Two address spaces with disjoint frames are isolated: copyout to one is invisible to copyin from the other. */
  lemma Isolation(m: Mem, leaf: map<nat, Leaf>, other: map<nat, Leaf>, va: nat, src: seq<Byte>, a: nat, len: nat)
    requires UserFrames(leaf) !! UserFrames(other)
    ensures var m' := Out(m, leaf, va, src).0;
      In(m', other, a, len) == In(m, other, a, len) && InStr(m', other, a, len) == InStr(m, other, a, len)
  {
    OutTouches(m, leaf, va, src);
    InDependsOnFrames(m, Out(m, leaf, va, src).0, other, a, len);
  }

  /** The string at `va` ends at address `e`: the bytes up to it are readable, and it is the first NUL. */
  ghost predicate NulAt(m: Mem, leaf: map<nat, Leaf>, va: nat, e: nat) {
    && va <= e
    && (forall a: nat | va <= a <= e :: Readable(m, leaf, a / 4096) && (ByteAt(m, leaf, a) == 0 <==> a == e))
  }

  /** copyinstr returns 0 exactly when a NUL lies within the first `max` bytes, all readable up to it. */
  lemma {:induction false} InStrSucceeds(m: Mem, leaf: map<nat, Leaf>, va: nat, max: nat)
    ensures InStr(m, leaf, va, max).1 == 0 <==> exists e: nat :: e < va + max && NulAt(m, leaf, va, e)
    decreases max
  {
    if max > 0 && Readable(m, leaf, va / 4096) {
      if ByteAt(m, leaf, va) == 0 {
        assert NulAt(m, leaf, va, va);
      } else {
        InStrSucceeds(m, leaf, va + 1, max - 1);
        if e: nat :| e < va + max && NulAt(m, leaf, va, e) {
          assert e < va + 1 + (max - 1) && NulAt(m, leaf, va + 1, e);
        }
        var va1, max1 := va + 1, max - 1;
        if e: nat :| e < va1 + max1 && NulAt(m, leaf, va1, e) {
          assert e < va + max && NulAt(m, leaf, va, e);
        }
      }
    }
  }

  /** On success copyinstr delivers exactly that string, its NUL included. */
  lemma {:induction false} InStrDelivers(m: Mem, leaf: map<nat, Leaf>, va: nat, max: nat, e: nat)
    requires e < va + max && NulAt(m, leaf, va, e)
    ensures InStr(m, leaf, va, max).1 == 0
    ensures var s := InStr(m, leaf, va, max).0;
      |s| == e - va + 1 && forall a: nat | va <= a <= e :: Readable(m, leaf, a / 4096) && s[a - va] == ByteAt(m, leaf, a)
    decreases max
  {
    assert Readable(m, leaf, va / 4096);
    if e > va {
      assert ByteAt(m, leaf, va) != 0;
      InStrDelivers(m, leaf, va + 1, max - 1, e);
    }
  }

  /** What copyinstr delivers before it fails is the user bytes, none of them NUL. */
  lemma {:induction false} InStrFailing(m: Mem, leaf: map<nat, Leaf>, va: nat, max: nat, i: nat)
    requires InStr(m, leaf, va, max).1 != 0 && i < |InStr(m, leaf, va, max).0|
    ensures Readable(m, leaf, (va + i) / 4096)
    ensures InStr(m, leaf, va, max).0[i] == m[leaf[(va + i) / 4096].frame][(va + i) % 4096] != 0
    decreases max
  {
    if i > 0 {
      InStrFailing(m, leaf, va + 1, max - 1, i - 1);
      assert va + 1 + (i - 1) == va + i;
    }
  }

  /** It fails with -1, after `max` bytes or at the first it may not read. */
  lemma {:induction false} InStrFails(m: Mem, leaf: map<nat, Leaf>, va: nat, max: nat)
    requires InStr(m, leaf, va, max).1 != 0
    ensures var (s, r) := InStr(m, leaf, va, max);
      r == -1 && |s| <= max && (|s| < max ==> !Readable(m, leaf, (va + |s|) / 4096))
    decreases max
  {
    if max > 0 && Readable(m, leaf, va / 4096) {
      InStrFails(m, leaf, va + 1, max - 1);
    }
  }

  // ----- what new and copied pages read as -----

  /** Pages that uvmalloc has added read as zeros, and can be written when W was asked for. */
  lemma GrownReads(m: Mem, sp: Space, sp': Space, lo: nat, hi: nat, xperm: nat, va: nat, len: nat)
    requires Grown(m, sp, sp', lo, hi, UserFlags(xperm)) && Xperm(xperm) && lo * 4096 <= va && va + len <= hi * 4096
    ensures In(m, sp'.leaf, va, len) == (seq(len, i => 0), 0)
    ensures forall src: seq<Byte> | |src| == len :: Out(m, sp'.leaf, va, src).1 == 0 <==> len == 0 || xperm / 4 % 2 == 1
  {
    GrownAccess(m, sp, sp', lo, hi, xperm);
    InSucceeds(m, sp'.leaf, va, len);
    InStops(m, sp'.leaf, va, len);
    var s := In(m, sp'.leaf, va, len).0;
    forall i: nat | i < |s| ensures s[i] == 0 {
      InDelivers(m, sp'.leaf, va, len, i);
    }
    assert s == seq(len, i => 0);
    forall src: seq<Byte> | |src| == len ensures Out(m, sp'.leaf, va, src).1 == 0 <==> len == 0 || xperm / 4 % 2 == 1 {
      OutSucceeds(m, sp'.leaf, va, src);
      assert len > 0 ==> va <= va < va + |src|;
    }
  }

  // ----- the loops -----

  /** What the copy loops rely on: the frames that user code can access are neither free nor tree nodes. */
  ghost predicate UserPages(k: Kmem, free: seq<nat>, sp: Space) {
    forall v | v in sp.leaf && U(sp.leaf[v].flags) ::
      k.Managed(sp.leaf[v].frame) && sp.leaf[v].frame !in free && sp.leaf[v].frame !in sp.NodePages()
  }

  /** An address space whose user-accessible pages all lie below the fixed ones. */
  lemma OwnUserPages(k: Kmem, m: Mem, free: seq<nat>, sp: Space)
    requires OwnsAt(k, m, free, sp) && forall v | v in sp.leaf && U(sp.leaf[v].flags) :: v < USERTOP
    ensures UserPages(k, free, sp) && Injective(sp.leaf) && UserFrames(sp.leaf) <= Owned(sp)
    ensures UserFrames(sp.leaf) !! sp.NodePages() + ToSet(free)
  {
    hide WF;
    assert UserFrames(sp.leaf) <= Frames(sp.leaf, 0, USERTOP) by {
      forall f | f in UserFrames(sp.leaf) ensures f in Frames(sp.leaf, 0, USERTOP) {
        var v :| v in sp.leaf && U(sp.leaf[v].flags) && sp.leaf[v].frame == f;
      }
    }
  }

  /** One more user-accessible page, the read-only page of getpid, whose frame is nobody else's. */
  lemma SharedUserPage(k: Kmem, m: Mem, free: seq<nat>, sp: Space, u: nat)
    requires OwnsAt(k, m, free, sp) && u in sp.leaf
    requires forall v | v in sp.leaf && U(sp.leaf[v].flags) :: v < USERTOP || v == u
    requires k.Managed(sp.leaf[u].frame) && sp.leaf[u].frame !in free && (USERTOP <= u ==> sp.leaf[u].frame !in Owned(sp))
    ensures UserPages(k, free, sp) && Injective(sp.leaf)
  {
    hide WF;
    forall v | v in sp.leaf && v < USERTOP ensures sp.leaf[v].frame in Owned(sp) {
      assert sp.leaf[v].frame in Frames(sp.leaf, 0, USERTOP);
    }
  }

  /** The entry of a user page as copyout and copyin test it. */
  lemma EntryFlags(k: Kmem, sp: Space, v: nat)
    requires Tree(k, sp) && UserPages(k, k.free, sp)
    ensures var w := LeafPte(sp.leaf, v);
      && (V(w) && U(w) <==> Readable(k.mem, sp.leaf, v))
      && (V(w) && U(w) && W(w) <==> Writable(k.mem, sp.leaf, v))
  {
    hide WF;
    if v in sp.leaf {
      var l := sp.leaf[v];
      LeafNode(k, sp, v);
      EncodedLeaf(l);
      Split(l.frame, l.flags);
      assert Half(Encode(l)) == Half(l.flags);
      if U(l.flags) {
        ManagedInMem(k, l.frame);
      }
    } else {
      ZeroInvalid();
    }
  }

  /** `page` with `chunk` at offset `o`. */
  function PageWith(page: Page, o: nat, chunk: seq<Byte>): Page
    requires o + |chunk| <= 4096
  {
    page[..o] + chunk + page[o + |chunk|..]
  }

  lemma PageWithStep(page: Page, o: nat, chunk: seq<Byte>)
    requires o + |chunk| <= 4096
    ensures chunk == [] ==> PageWith(page, o, chunk) == page
    ensures chunk != [] ==> PageWith(page, o, chunk) == PageWith(page[o := chunk[0]], o + 1, chunk[1..])
  {
    if chunk != [] {
      var q: Page := page[o := chunk[0]];
      assert q[..o + 1] == page[..o] + [chunk[0]];
      assert q[o + |chunk|..] == page[o + |chunk|..];
      assert chunk == [chunk[0]] + chunk[1..];
    }
  }

  /** The bytes of one page from `va`, written at once. */
  function WriteChunk(m: Mem, leaf: map<nat, Leaf>, va: nat, chunk: seq<Byte>): Mem
    requires Readable(m, leaf, va / 4096) && va % 4096 + |chunk| <= 4096
  {
    var f := leaf[va / 4096].frame;
    m[f := PageWith(m[f], va % 4096, chunk)]
  }

  /** A memmove within one page is what copying its bytes one by one does. */
  lemma {:induction false} ChunkOut(m: Mem, leaf: map<nat, Leaf>, va: nat, chunk: seq<Byte>, rest: seq<Byte>)
    requires Writable(m, leaf, va / 4096) && va % 4096 + |chunk| <= 4096
    ensures Out(m, leaf, va, chunk + rest) == Out(WriteChunk(m, leaf, va, chunk), leaf, va + |chunk|, rest)
    decreases |chunk|
  {
    hide PageWith;
    var o := va % 4096;
    var page := m[leaf[va / 4096].frame];
    PageWithStep(page, o, chunk);
    if chunk == [] {
      assert chunk + rest == rest;
      assert WriteChunk(m, leaf, va, chunk) == m;
    } else {
      var m' := WriteByte(m, leaf, va, chunk[0]);
      assert (chunk + rest)[1..] == chunk[1..] + rest;
      if |chunk| > 1 {
        assert (va + 1) / 4096 == va / 4096 && (va + 1) % 4096 == o + 1;
        ChunkOut(m', leaf, va + 1, chunk[1..], rest);
        assert WriteChunk(m, leaf, va, chunk) == WriteChunk(m', leaf, va + 1, chunk[1..]);
      } else {
        PageWithStep(page[o := chunk[0]], o + 1, chunk[1..]);
        assert chunk[1..] + rest == rest;
        assert WriteChunk(m, leaf, va, chunk) == m';
      }
    }
  }

  /** A memmove out of one page delivers what reading its bytes one by one does. */
  lemma {:induction false} ChunkIn(m: Mem, leaf: map<nat, Leaf>, va: nat, n: nat, len: nat)
    requires Readable(m, leaf, va / 4096) && va % 4096 + n <= 4096 && n <= len
    ensures var (rest, r) := In(m, leaf, va + n, len - n);
      In(m, leaf, va, len) == (m[leaf[va / 4096].frame][va % 4096..va % 4096 + n] + rest, r)
    decreases n
  {
    var page := m[leaf[va / 4096].frame];
    var o := va % 4096;
    var rest := In(m, leaf, va + n, len - n).0;
    if n == 0 {
      assert page[o..o + n] + rest == rest;
    } else {
      assert page[o..o + n] == [page[o]] + page[o + 1..o + n];
      if n > 1 {
        assert (va + 1) / 4096 == va / 4096 && (va + 1) % 4096 == o + 1;
        ChunkIn(m, leaf, va + 1, n - 1, len - 1);
        assert [page[o]] + (page[o + 1..o + n] + rest) == page[o..o + n] + rest;
      } else {
        assert page[o..o + n] == [page[o]];
      }
    }
  }

  /**
   * copyout: copy `src` to user address `dstva`.  Memory and return value are those of the
   * byte-by-byte reference, also when it stops midway.
   */
  method CopyOut(k: Kmem, root: nat, dstva: nat, src: seq<Byte>, ghost sp: Space) returns (r: int)
    requires Tree(k, sp) && UserPages(k, k.free, sp) && root == sp.RootPage() * 4096
    modifies k
    ensures Tree(k, sp)
    ensures (k.mem, r) == Out(old(k.mem), sp.leaf, dstva, src)
    ensures k.free == old(k.free)
  {
    hide Tree;
    hide UserPages;
    hide Out;
    var va: nat, from: nat := dstva, 0;
    assert src[0..] == src;
    while from < |src|
      invariant 0 <= from <= |src|
      invariant Tree(k, sp) && UserPages(k, k.free, sp) && k.free == old(k.free)
      invariant Out(old(k.mem), sp.leaf, dstva, src) == Out(k.mem, sp.leaf, va, src[from..])
      decreases |src| - from
    {
      var ok, n := OutPage(k, root, va, src[from..], sp);
      if !ok {
        return -1;
      }
      assert src[from..][n..] == src[from + n..];
      from := from + n;
      va := PgRoundDown(va) + 4096;
    }
    NothingOut(k.mem, sp.leaf, va, src[from..]);
    r := 0;
  }

  lemma NothingOut(m: Mem, leaf: map<nat, Leaf>, va: nat, src: seq<Byte>)
    requires src == []
    ensures Out(m, leaf, va, src) == (m, 0)
  {
  }

  /** One turn of copyout: store the part of `src` that fits into the page of `dstva`. */
  method OutPage(k: Kmem, root: nat, dstva: nat, src: seq<Byte>, ghost sp: Space) returns (ok: bool, n: nat)
    requires Tree(k, sp) && UserPages(k, k.free, sp) && root == sp.RootPage() * 4096 && src != []
    modifies k
    ensures Tree(k, sp) && k.free == old(k.free)
    ensures 0 < n <= |src|
    ensures ok ==> Out(old(k.mem), sp.leaf, dstva, src) == Out(k.mem, sp.leaf, PgRoundDown(dstva) + 4096, src[n..])
    ensures !ok ==> k.mem == old(k.mem) && Out(k.mem, sp.leaf, dstva, src) == (k.mem, -1)
  {
    hide Tree;
    hide Freeable;
    hide V;
    hide U;
    hide W;
    hide Pte2Pa;
    var va0 := PgRoundDown(dstva);
    ghost var v := dstva / 4096;
    ok, n := true, 1;
    if va0 >= MAXVA {
      NotMapped(k, sp, v);
      return false, 1;
    }
    assert va0 / 4096 == v;
    EntryFlags(k, sp, v);
    var pte;
    ghost var same;
    pte, same := Walk(k, root, va0, false, sp);
    if pte == 0 {
      NoNode(k, sp, v);
      return false, 1;
    }
    var w := LoadEntry(k, pte, v, sp);
    if !V(w) || !U(w) || !W(w) {
      return false, 1;
    }
    var f := Pte2Pa(w) / 4096;
    n := 4096 - (dstva - va0);
    if n > |src| {
      n := |src|;
    }
    ghost var m: Mem := k.mem;
    WriteFrame(k, sp, v, f);
    StorePage(k, f, PageWith(k.mem[f], dstva - va0, src[..n]), sp);
    ChunkOut(m, sp.leaf, dstva, src[..n], src[n..]);
    assert src[..n] + src[n..] == src;
  }

  /** memmove into a page outside the tree. */
  method StorePage(k: Kmem, p: nat, page: Page, ghost sp: Space)
    requires Tree(k, sp) && k.Managed(p) && p !in k.free && p !in sp.NodePages()
    modifies k`mem
    ensures Tree(k, sp) && p in old(k.mem) && k.mem == old(k.mem)[p := page]
  {
    hide WF;
    ghost var m: Mem := k.mem;
    ManagedInMem(k, p);
    k.SetPage(p, page);
    NodesInMem(k, m, sp);
    TreeFrame(k, sp, m);
  }

  lemma NodesInMem(k: Kmem, m: Mem, sp: Space)
    requires WF(m, sp)
    ensures forall p | p in sp.NodePages() :: p in m
  {
    forall p | p in sp.NodePages() ensures p in m {
      var id :| id in sp.nodes && sp.nodes[id] == p;
      assert Holds(m, sp, id);
    }
  }

  lemma NotMapped(k: Kmem, sp: Space, v: nat)
    requires Tree(k, sp) && v >= MAXVPN
    ensures v !in sp.leaf
  {
  }

  lemma NoNode(k: Kmem, sp: Space, v: nat)
    requires Tree(k, sp) && NodeId(0, v / 512) !in sp.nodes
    ensures v !in sp.leaf
  {
  }

  lemma WriteFrame(k: Kmem, sp: Space, v: nat, f: nat)
    requires Tree(k, sp) && UserPages(k, k.free, sp) && Readable(k.mem, sp.leaf, v) && f == sp.leaf[v].frame
    ensures k.Managed(f) && f !in k.free && f !in sp.NodePages() && f in k.mem
  {
    hide WF;
  }

  /** walkaddr: the physical address of a user page, 0 when `va` is not mapped for the user. */
  method WalkAddr(k: Kmem, root: nat, va: nat, ghost sp: Space) returns (pa: nat)
    requires Tree(k, sp) && UserPages(k, k.free, sp) && root == sp.RootPage() * 4096
    modifies k
    ensures Tree(k, sp) && k.mem == old(k.mem) && k.free == old(k.free)
    ensures pa != 0 <==> Readable(k.mem, sp.leaf, va / 4096)
    ensures pa != 0 ==> pa == sp.leaf[va / 4096].frame * 4096
  {
    hide Tree;
    hide Freeable;
    hide V;
    hide U;
    hide Pte2Pa;
    ghost var v := va / 4096;
    if va >= MAXVA {
      NotMapped(k, sp, v);
      return 0;
    }
    EntryFlags(k, sp, v);
    var pte;
    ghost var same;
    pte, same := Walk(k, root, va, false, sp);
    if pte == 0 {
      NoNode(k, sp, v);
      return 0;
    }
    var w := LoadEntry(k, pte, v, sp);
    if !V(w) {
      return 0;
    }
    if !U(w) {
      return 0;
    }
    ReadFrame(k, sp, v);
    pa := Pte2Pa(w);
  }

  lemma ReadFrame(k: Kmem, sp: Space, v: nat)
    requires Tree(k, sp) && UserPages(k, k.free, sp) && Readable(k.mem, sp.leaf, v)
    ensures sp.leaf[v].frame > 0
  {
    hide WF;
    ManagedInMem(k, sp.leaf[v].frame);
  }

  /**
   * copyin: copy `len` bytes from user address `srcva` into the kernel buffer `dst`.  The bytes
   * delivered and the return value are those of the byte-by-byte reference.
   */
  method CopyIn(k: Kmem, root: nat, dst: array<Byte>, srcva: nat, len: nat, ghost sp: Space) returns (r: int)
    requires Tree(k, sp) && UserPages(k, k.free, sp) && root == sp.RootPage() * 4096
    requires len <= dst.Length
    modifies k, dst
    ensures Tree(k, sp) && k.mem == old(k.mem) && k.free == old(k.free)
    ensures var (s, ret) := In(k.mem, sp.leaf, srcva, len);
      r == ret && |s| <= len && dst[..] == s + old(dst[..])[|s|..]
  {
    hide Tree;
    hide UserPages;
    var va: nat, left: nat, at: nat := srcva, len, 0;
    ghost var m: Mem := k.mem;
    ghost var all := In(m, sp.leaf, srcva, len);
    InStops(m, sp.leaf, srcva, len);
    assert dst[..at] + all.0 == all.0;
    while left > 0
      invariant at + left == len
      invariant Tree(k, sp) && UserPages(k, k.free, sp) && k.mem == m && k.free == old(k.free)
      invariant Arriving(m, sp.leaf, all, dst[..], at, va, left)
      invariant dst[at..] == old(dst[..])[at..]
      decreases left
    {
      var va0 := PgRoundDown(va);
      assert va0 / 4096 == va / 4096;
      var pa0 := WalkAddr(k, root, va0, sp);
      if pa0 == 0 {
        return -1;
      }
      assert pa0 / 4096 == sp.leaf[va / 4096].frame;
      at, left := InPage(dst, k.mem[pa0 / 4096], va, va - va0, at, left, m, sp, all);
      va := va0 + 4096;
    }
    r := 0;
  }

  /** The bytes copied so far, `s[..at]`, followed by what is still to come. */
  ghost predicate Arriving(m: Mem, leaf: map<nat, Leaf>, all: (seq<Byte>, int), s: seq<Byte>, at: nat, va: nat, left: nat) {
    at <= |s| && all == (s[..at] + In(m, leaf, va, left).0, In(m, leaf, va, left).1)
  }

  /** One turn of copyin: move the part of the range that lies in the page of `va`. */
  method InPage(dst: array<Byte>, page: Page, va: nat, offset: nat, at0: nat, left0: nat, ghost m: Mem, ghost sp: Space, ghost all: (seq<Byte>, int))
    returns (at: nat, left: nat)
    requires Readable(m, sp.leaf, va / 4096) && page == m[sp.leaf[va / 4096].frame] && offset == va % 4096
    requires 0 < left0 && at0 + left0 <= dst.Length
    requires Arriving(m, sp.leaf, all, dst[..], at0, va, left0)
    modifies dst
    ensures at + left == at0 + left0 && at0 < at
    ensures Arriving(m, sp.leaf, all, dst[..], at, PgRoundDown(va) + 4096, left)
    ensures dst[at..] == old(dst[..])[at..]
  {
    hide Readable;
    var n: nat := 4096 - offset;
    if n > left0 {
      n := left0;
    }
    ChunkIn(m, sp.leaf, va, n, left0);
    var chunk := page[offset..offset + n];
    ghost var before := dst[..at0];
    ghost var rest := In(m, sp.leaf, va + n, left0 - n);
    MoveTo(dst, at0, chunk);
    at, left := at0 + n, left0 - n;
    assert dst[..at] == before + chunk;
    assert before + (chunk + rest.0) == dst[..at] + rest.0;
    assert rest == In(m, sp.leaf, PgRoundDown(va) + 4096, left);
  }

  /** memmove(dst + at, chunk, |chunk|) within the kernel buffer. */
  method MoveTo(dst: array<Byte>, at: nat, chunk: seq<Byte>)
    requires at + |chunk| <= dst.Length
    modifies dst
    ensures dst[..] == old(dst[..at]) + chunk + old(dst[at + |chunk|..])
  {
    forall i | 0 <= i < |chunk| {
      dst[at + i] := chunk[i];
    }
  }

  lemma {:induction false} InStrLength(m: Mem, leaf: map<nat, Leaf>, va: nat, max: nat)
    ensures |InStr(m, leaf, va, max).0| <= max
    decreases max
  {
    if max > 0 && Readable(m, leaf, va / 4096) && ByteAt(m, leaf, va) != 0 {
      InStrLength(m, leaf, va + 1, max - 1);
    }
  }

  /**
   * copyinstr: copy a NUL-terminated string of at most `max` bytes from user address `srcva`.
   * The bytes delivered and the return value are those of the byte-by-byte reference.
   */
  method CopyInStr(k: Kmem, root: nat, dst: array<Byte>, srcva: nat, max: nat, ghost sp: Space) returns (r: int)
    requires Tree(k, sp) && UserPages(k, k.free, sp) && root == sp.RootPage() * 4096
    requires max <= dst.Length
    modifies k, dst
    ensures Tree(k, sp) && k.mem == old(k.mem) && k.free == old(k.free)
    ensures var (s, ret) := InStr(k.mem, sp.leaf, srcva, max);
      r == ret && |s| <= max && dst[..] == s + old(dst[..])[|s|..]
  {
    hide Tree;
    hide UserPages;
    var va: nat, left: nat, at: nat := srcva, max, 0;
    var gotNull := false;
    ghost var m: Mem := k.mem;
    ghost var all := InStr(m, sp.leaf, srcva, max);
    InStrLength(m, sp.leaf, srcva, max);
    assert dst[..at] + all.0 == all.0;
    while !gotNull && left > 0
      invariant at + left == max
      invariant Tree(k, sp) && UserPages(k, k.free, sp) && k.mem == m && k.free == old(k.free)
      invariant Pending(m, sp.leaf, all, dst[..], at, va, left, gotNull)
      invariant dst[at + (if gotNull then 1 else 0)..] == old(dst[..])[at + (if gotNull then 1 else 0)..]
      decreases !gotNull, left
    {
      var va0 := PgRoundDown(va);
      assert va0 / 4096 == va / 4096;
      var pa0 := WalkAddr(k, root, va0, sp);
      if pa0 == 0 {
        return -1;
      }
      assert pa0 / 4096 == sp.leaf[va / 4096].frame;
      gotNull, at, left := StrPage(dst, k.mem[pa0 / 4096], va, va - va0, at, left, m, sp, all);
      va := va0 + 4096;
    }
    r := if gotNull then 0 else -1;
  }

  /** The string copied so far, `s[..at]`, followed by what is still to come. */
  ghost predicate Pending(m: Mem, leaf: map<nat, Leaf>, all: (seq<Byte>, int), s: seq<Byte>, at: nat, va: nat, left: nat, gotNull: bool) {
    if gotNull then at < |s| && all == (s[..at + 1], 0)
    else at <= |s| && all == (s[..at] + InStr(m, leaf, va, left).0, InStr(m, leaf, va, left).1)
  }

  /** One byte of the string moves from what is to come to what has been copied. */
  lemma PendingByte(m: Mem, leaf: map<nat, Leaf>, all: (seq<Byte>, int), s: seq<Byte>, s': seq<Byte>, at: nat, va: nat, left: nat)
    requires Pending(m, leaf, all, s, at, va, left, false) && at < |s| && 0 < left
    requires Readable(m, leaf, va / 4096) && s' == s[at := ByteAt(m, leaf, va)]
    ensures ByteAt(m, leaf, va) == 0 ==> forall a: nat, l: nat :: Pending(m, leaf, all, s', at, a, l, true)
    ensures ByteAt(m, leaf, va) != 0 ==> Pending(m, leaf, all, s', at + 1, va + 1, left - 1, false)
  {
    var b := ByteAt(m, leaf, va);
    assert s'[..at + 1] == s[..at] + [b];
    if b != 0 {
      var rest := InStr(m, leaf, va + 1, left - 1).0;
      assert s[..at] + ([b] + rest) == s'[..at + 1] + rest;
    }
  }

  /** The inner loop of copyinstr: the bytes of one page, up to a NUL. */
  method StrPage(dst: array<Byte>, page: Page, va: nat, offset: nat, at0: nat, left0: nat, ghost m: Mem, ghost sp: Space, ghost all: (seq<Byte>, int))
    returns (gotNull: bool, at: nat, left: nat)
    requires Readable(m, sp.leaf, va / 4096) && page == m[sp.leaf[va / 4096].frame] && offset == va % 4096
    requires 0 < left0 && at0 + left0 <= dst.Length
    requires Pending(m, sp.leaf, all, dst[..], at0, va, left0, false)
    modifies dst
    ensures at + left == at0 + left0 && (gotNull ==> 0 < left) && left <= left0 && (!gotNull ==> left < left0)
    ensures Pending(m, sp.leaf, all, dst[..], at, PgRoundDown(va) + 4096, left, gotNull)
    ensures var tail := at + if gotNull then 1 else 0; at0 <= at && dst[tail..] == old(dst[..])[tail..]
  {
    hide Pending;
    hide InStr;
    hide Readable;
    gotNull, at, left := false, at0, left0;
    var p := offset;
    var n: nat := 4096 - p;
    if n > left {
      n := left;
    }
    while n > 0
      invariant at + left == at0 + left0 && at0 <= at && n <= left
      invariant offset <= p && p + n <= 4096 && (p + n == 4096 || n == left) && at - at0 == p - offset
      invariant n == 0 ==> left < left0
      invariant !gotNull
      invariant Pending(m, sp.leaf, all, dst[..], at, va + (p - offset), left, false)
      invariant dst[at..] == old(dst[..])[at..]
      decreases n
    {
      ghost var cur := va + (p - offset);
      assert cur / 4096 == va / 4096 && cur % 4096 == p;
      ghost var before, tail := dst[..], dst[at + 1..];
      if page[p] == 0 {
        dst[at] := 0;
        gotNull := true;
        PendingByte(m, sp.leaf, all, before, dst[..], at, cur, left);
        assert dst[at + 1..] == tail;
        return;
      }
      dst[at] := page[p];
      PendingByte(m, sp.leaf, all, before, dst[..], at, cur, left);
      assert dst[at + 1..] == tail;
      n, left, p, at := n - 1, left - 1, p + 1, at + 1;
    }
    PendingEnd(m, sp.leaf, all, dst[..], at, va + (p - offset), PgRoundDown(va) + 4096, left);
  }

  lemma PendingEnd(m: Mem, leaf: map<nat, Leaf>, all: (seq<Byte>, int), s: seq<Byte>, at: nat, va: nat, va': nat, left: nat)
    requires Pending(m, leaf, all, s, at, va, left, false) && (va == va' || left == 0)
    ensures Pending(m, leaf, all, s, at, va', left, false)
  {
  }
}
