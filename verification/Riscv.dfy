/**
 * Sv39 arithmetic of lab page tables/kernel/riscv.h: page rounding, the three 9-bit
 * indices of a virtual address and the layout of a page-table entry.  A shift by k is
 * a division by 2^k and a mask of k low bits a remainder by 2^k; every value is a uint64.
 */
module Riscv {
  import Division

  const PGSIZE: nat := 4096
  const TWO64: nat := 0x1_0000_0000_0000_0000

  // One beyond the highest virtual address: 2^(9 + 9 + 9 + 12 - 1).
  const MAXVA: nat := 0x40_0000_0000
  const MAXVPN: nat := 0x400_0000

  // The fixed high pages sit directly below MAXVA.
  const TRAMPOLINE: nat := MAXVA - 4096
  const TRAPFRAME: nat := TRAMPOLINE - 4096
  const USYSCALL: nat := TRAPFRAME - 4096
  const TRAMPOLINE_VPN: nat := MAXVPN - 1
  const TRAPFRAME_VPN: nat := MAXVPN - 2
  const USYSCALL_VPN: nat := MAXVPN - 3

  const PTE_V: nat := 1
  const PTE_R: nat := 2
  const PTE_W: nat := 4
  const PTE_X: nat := 8
  const PTE_U: nat := 16

  function U64(x: int): nat {
    x % 0x1_0000_0000_0000_0000
  }

  function PgRoundUp(sz: nat): nat {
    U64(sz + 4096 - 1) / 4096 * 4096
  }

  function PgRoundDown(a: nat): nat {
    a / 4096 * 4096
  }

  /** Number of pages that hold `sz` bytes. */
  function Pages(sz: nat): nat {
    (sz + 4096 - 1) / 4096
  }

  /** The 9-bit index of `va` at `level`. */
  function PX(level: nat, va: nat): (i: nat)
    requires level <= 2
    ensures i < 512
  {
    if level == 2 then va / 0x4000_0000 % 512
    else if level == 1 then va / 0x20_0000 % 512
    else va / 4096 % 512
  }

  function Pa2Pte(pa: nat): nat {
    pa / 4096 * 1024
  }

  function Pte2Pa(pte: nat): nat {
    pte / 1024 * 4096
  }

  function PteFlags(pte: nat): nat {
    pte % 1024
  }

  // The flag tests `pte & PTE_x`: bits 0 to 4, read off the low ten bits one half at a time.
  function Half(pte: nat): nat { pte % 1024 / 2 }
  predicate V(pte: nat) { pte % 2 == 1 }
  predicate R(pte: nat) { Half(pte) % 2 == 1 }
  predicate W(pte: nat) { Half(pte) / 2 % 2 == 1 }
  predicate X(pte: nat) { Half(pte) / 2 / 2 % 2 == 1 }
  predicate U(pte: nat) { Half(pte) / 2 / 2 / 2 % 2 == 1 }

  /** Halving is a shift by one, and a shift by one of the low n + 1 bits is the low n bits of a shift. */
  lemma Shifts(pte: nat)
    ensures Half(pte) == pte / 2 % 512
    ensures Half(pte) / 2 == pte / 4 % 256 && Half(pte) / 2 / 2 == pte / 8 % 128 && Half(pte) / 2 / 2 / 2 == pte / 16 % 64
  {
    ShiftOne(pte, 512);
    ShiftOne(pte / 2, 256);
    ShiftOne(pte / 4, 128);
    ShiftOne(pte / 8, 64);
  }

  lemma ShiftOne(x: nat, n: nat)
    requires 0 < n
    ensures x % (2 * n) / 2 == x / 2 % n
  {
    var q, r := x / (2 * n), x % (2 * n);
    assert x == 2 * n * q + r;
    assert x / 2 == n * q + r / 2;
    Division.QuotientIs(x / 2, n, q, r / 2);
  }

  lemma LowBit(x: nat, n: nat)
    requires 0 < n
    ensures x % (2 * n) % 2 == x % 2
  {
    var q, r := x / (2 * n), x % (2 * n);
    assert x == 2 * (n * q) + r;
  }

  /** The tests by bit number: V is bit 0, R bit 1, W bit 2, X bit 3 and U bit 4. */
  lemma FlagBits(pte: nat)
    ensures V(pte) <==> pte % 2 == 1
    ensures R(pte) <==> pte / 2 % 2 == 1
    ensures W(pte) <==> pte / 4 % 2 == 1
    ensures X(pte) <==> pte / 8 % 2 == 1
    ensures U(pte) <==> pte / 16 % 2 == 1
  {
    Shifts(pte);
    LowBit(pte / 2, 256);
    LowBit(pte / 4, 128);
    LowBit(pte / 8, 64);
    LowBit(pte / 16, 32);
    hide Half;
  }

  /** The fixed pages end the 39-bit address space. */
  lemma FixedAddresses()
    ensures TRAMPOLINE == 0x3f_ffff_f000 && TRAPFRAME == 0x3f_ffff_e000 && USYSCALL == 0x3f_ffff_d000
    ensures TRAMPOLINE == TRAMPOLINE_VPN * 4096 && TRAPFRAME == TRAPFRAME_VPN * 4096 && USYSCALL == USYSCALL_VPN * 4096
    ensures MAXVA == 0x40_0000_0000 == MAXVPN * 4096
  {
  }

  /** `perm | PTE_V` */
  function SetV(perm: nat): nat {
    if V(perm) then perm else perm + 1
  }

  /** A permission set that makes an entry a leaf in the sense of Sv39: readable or executable. */
  predicate LeafPerm(perm: nat) {
    perm < 1024 && (R(perm) || X(perm))
  }

  /**
   * The index path of a page number: reading the indices from the top gives the
   * number of the node at each level, and at level 0 the page number itself.
   */
  lemma IndexPath(va: nat)
    requires va < MAXVA
    ensures va / 4096 < MAXVPN
    ensures PX(2, va) == va / 4096 / 0x4_0000
    ensures va / 4096 / 512 == PX(2, va) * 512 + PX(1, va)
    ensures va / 4096 == (va / 4096 / 512) * 512 + PX(0, va)
  {
    var v := va / 4096;
    assert va / 0x4000_0000 == v / 0x4_0000;
    assert va / 0x20_0000 == v / 512;
    assert v / 512 / 512 == v / 0x4_0000;
  }

  /** Different page numbers below MAXVA have different index paths. */
  lemma IndexPathInjective(va: nat, vb: nat)
    requires va < MAXVA && vb < MAXVA
    ensures va / 4096 == vb / 4096 <==>
      PX(2, va) == PX(2, vb) && PX(1, va) == PX(1, vb) && PX(0, va) == PX(0, vb)
  {
    IndexPath(va);
    IndexPath(vb);
  }

  /** The entry mappages writes: page number from bit 10 up, flags below, and both read back. */
  lemma PteRoundTrip(pa: nat, perm: nat)
    requires pa % 4096 == 0 && perm < 1024
    ensures var pte := Pa2Pte(pa) + SetV(perm);
      && pte / 1024 == pa / 4096 && pte % 2 == 1 && pte / 2 % 512 == perm / 2
      && Pte2Pa(pte) == pa
      && PteFlags(pte) == SetV(perm)
      && V(pte) && R(pte) == R(perm) && W(pte) == W(perm) && X(pte) == X(perm) && U(pte) == U(perm)
  {
    var pte := Pa2Pte(pa) + SetV(perm);
    SetVHalf(perm);
    Split(pa / 4096, SetV(perm));
    assert Half(pte) == Half(perm);
  }

  lemma SetVHalf(perm: nat)
    requires perm < 1024
    ensures SetV(perm) < 1024 && V(SetV(perm)) && Half(SetV(perm)) == Half(perm)
  {
  }

  lemma Split(q: nat, f: nat)
    requires f < 1024
    ensures (q * 1024 + f) / 1024 == q && (q * 1024 + f) % 1024 == f && V(q * 1024 + f) == V(f)
    ensures Half(q * 1024 + f) == Half(f)
  {
    assert q * 1024 + f == 2 * (q * 512) + f;
  }

  /** The address of the i-th word of page `p`. */
  function WordAddr(p: nat, i: nat): nat {
    p * 4096 + i * 8
  }

  lemma WordAddrParts(p: nat, i: nat)
    requires i < 512
    ensures WordAddr(p, i) / 4096 == p && WordAddr(p, i) % 8 == 0 && WordAddr(p, i) % 4096 / 8 == i
  {
  }

  lemma RoundUpPages(sz: nat)
    requires sz <= MAXVA
    ensures PgRoundUp(sz) == Pages(sz) * 4096
    ensures sz <= Pages(sz) * 4096 < sz + 4096
  {
  }
}
