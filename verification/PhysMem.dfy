/** Physical memory: pages of 4096 bytes, read and written as bytes or as 64-bit little-endian words. */
module PhysMem {
  import opened Riscv

  type Byte = b: int | 0 <= b < 256

  type Page = s: seq<Byte> | |s| == 4096 witness seq(4096, i => 0)

  // Physical memory by physical page number.
  type Mem = map<nat, Page>

  function LittleEndian(b: seq<Byte>): nat {
    if b == [] then 0 else b[0] + 256 * LittleEndian(b[1..])
  }

  function Bytes(w: nat, n: nat): (b: seq<Byte>)
    ensures |b| == n
  {
    if n == 0 then [] else [w % 256] + Bytes(w / 256, n - 1)
  }

  function Pow256(n: nat): nat {
    if n == 0 then 1 else 256 * Pow256(n - 1)
  }

  lemma {:induction false} BytesRoundTrip(w: nat, n: nat)
    requires w < Pow256(n)
    ensures LittleEndian(Bytes(w, n)) == w
  {
    if n > 0 {
      BytesRoundTrip(w / 256, n - 1);
      assert Bytes(w, n)[1..] == Bytes(w / 256, n - 1);
    }
  }

  lemma Pow256Is64Bits()
    ensures Pow256(8) == 0x1_0000_0000_0000_0000
  {
    assert Pow256(4) == 0x1_0000_0000;
    assert Pow256(8) == 256 * (256 * (256 * (256 * Pow256(4))));
  }

  /** The i-th 64-bit word of a page. */
  function Word(p: Page, i: nat): nat
    requires i < 512
  {
    LittleEndian(p[8 * i..8 * i + 8])
  }

  function ByteOf(p: Page, a: nat): nat
    requires a < 4096
  {
    p[a]
  }

  /** The bytes of a word lie in memory with the lowest first. */
  lemma WordBytes(p: Page, i: nat)
    requires i < 512
    ensures Word(p, i) == ByteOf(p, 8 * i) + 0x100 * ByteOf(p, 8 * i + 1) + 0x1_0000 * ByteOf(p, 8 * i + 2) + 0x100_0000 * ByteOf(p, 8 * i + 3)
      + 0x1_0000_0000 * (ByteOf(p, 8 * i + 4) + 0x100 * ByteOf(p, 8 * i + 5) + 0x1_0000 * ByteOf(p, 8 * i + 6) + 0x100_0000 * ByteOf(p, 8 * i + 7))
  {
    var b := p[8 * i..8 * i + 8];
    forall k: nat | k < 8 ensures LittleEndian(b[k..]) == b[k] + 256 * LittleEndian(b[k + 1..]) {
      assert b[k..][1..] == b[k + 1..];
    }
    assert LittleEndian(b[4..]) == b[4] + 256 * (b[5] + 256 * (b[6] + 256 * (b[7] + 256 * LittleEndian(b[8..]))));
    assert b == b[0..] && LittleEndian(b[0..]) == b[0] + 256 * (b[1] + 256 * (b[2] + 256 * (b[3] + 256 * LittleEndian(b[4..]))));
  }

  function SetWord(p: Page, i: nat, w: nat): Page
    requires i < 512
  {
    p[..8 * i] + Bytes(w, 8) + p[8 * i + 8..]
  }

  /** A store to one word of a page is read back there and nowhere else. */
  lemma WordOfSetWord(p: Page, i: nat, w: nat, j: nat)
    requires i < 512 && j < 512 && w < 0x1_0000_0000_0000_0000
    ensures Word(SetWord(p, i, w), j) == if i == j then w else Word(p, j)
  {
    var q := SetWord(p, i, w);
    if i == j {
      assert q[8 * i..8 * i + 8] == Bytes(w, 8);
      Pow256Is64Bits();
      BytesRoundTrip(w, 8);
    } else {
      assert q[8 * j..8 * j + 8] == p[8 * j..8 * j + 8];
    }
  }

  lemma WordsOfSetWord(p: Page, i: nat, w: nat)
    requires i < 512 && w < 0x1_0000_0000_0000_0000
    ensures Word(SetWord(p, i, w), i) == w
    ensures forall j: nat {:trigger Word(SetWord(p, i, w), j)} {:trigger Word(p, j)} | j < 512 && j != i :: Word(SetWord(p, i, w), j) == Word(p, j)
  {
    WordOfSetWord(p, i, w, i);
    forall j: nat | j < 512 && j != i
      ensures Word(SetWord(p, i, w), j) == Word(p, j)
    {
      WordOfSetWord(p, i, w, j);
    }
  }

  /** memset(page, v, PGSIZE) */
  function Fill(v: Byte): Page {
    seq(4096, i => v)
  }

  lemma {:induction false} ZeroBytes(b: seq<Byte>)
    requires forall i | 0 <= i < |b| :: b[i] == 0
    ensures LittleEndian(b) == 0
  {
    if b != [] {
      ZeroBytes(b[1..]);
    }
  }

  lemma ZeroPageWords()
    ensures forall i: nat | i < 512 :: Word(Fill(0), i) == 0
  {
    forall i: nat | i < 512 ensures Word(Fill(0), i) == 0 {
      ZeroBytes(Fill(0)[8 * i..8 * i + 8]);
    }
  }

  /** `m1` is `m0` except on the pages of `touched`. */
  predicate Same(m0: Mem, m1: Mem, touched: set<nat>) {
    m0.Keys == m1.Keys && forall p | p in m0 && p !in touched :: m1[p] == m0[p]
  }
}
