/** Page and page-table arithmetic (kernel/riscv.h), and page-table entries as values. */
module Riscv {
  const PGSIZE: nat := 4096
  /** One beyond the highest virtual address, 2^38, and the two pages at the top. */
  const MAXVA: nat := 0x40_0000_0000
  const TRAMPOLINE: nat := MAXVA - PGSIZE
  const TRAPFRAME: nat := TRAMPOLINE - PGSIZE
  /** Virtual page numbers run up to MAXV; those below USERV hold user memory. */
  const MAXV: nat := 0x400_0000
  const USERV: nat := MAXV - 2
  const NPTE: nat := 512

  function RoundUp(a: nat): (r: nat)
    ensures a <= r < a + PGSIZE && r % PGSIZE == 0
  {
    (a + PGSIZE - 1) / PGSIZE * PGSIZE
  }

  function RoundDown(a: nat): (r: nat)
    ensures r <= a < r + PGSIZE && r % PGSIZE == 0
  {
    a / PGSIZE * PGSIZE
  }

  /** A loop over the pages below `sz` runs for RoundUp(sz) / PGSIZE turns. */
  lemma PageCount(k: nat, sz: nat)
    ensures k * PGSIZE < sz <==> k < RoundUp(sz) / PGSIZE
  {
  }

  // ----------------------------------------------------- page-table indices

  function Shift(level: nat): (r: nat)
    requires level < 3
    ensures r > 0
  {
    if level == 0 then 0x1000 else if level == 1 then 0x20_0000 else 0x4000_0000
  }

  /** PX: the 9-bit index of `va` at a level of the tree. */
  function PX(level: nat, va: nat): (i: nat)
    requires level < 3
    ensures i < NPTE
  {
    va / Shift(level) % NPTE
  }

  /** The same three indices, read off a page number. */
  function Px2(v: nat): (i: nat) ensures i < NPTE { v / 0x4_0000 % NPTE }

  function Px1(v: nat): (i: nat) ensures i < NPTE { v / NPTE % NPTE }

  function Px0(v: nat): (i: nat) ensures i < NPTE { v % NPTE }

  lemma PxOfPage(va: nat)
    ensures PX(2, va) == Px2(va / PGSIZE) && PX(1, va) == Px1(va / PGSIZE) && PX(0, va) == Px0(va / PGSIZE)
  {
    assert va / 0x20_0000 == va / PGSIZE / NPTE;
    assert va / 0x4000_0000 == va / PGSIZE / 0x4_0000;
  }

  /** The page number with these three indices. */
  function Vpn(i: nat, j: nat, k: nat): (v: nat) {
    (i * NPTE + j) * NPTE + k
  }

  lemma VpnOfPx(v: nat)
    requires v < 2 * MAXV
    ensures Vpn(Px2(v), Px1(v), Px0(v)) == v
  {
    assert v / 0x4_0000 < NPTE;
    assert v / 0x4_0000 == v / NPTE / NPTE;
  }

  lemma PxOfVpn(i: nat, j: nat, k: nat)
    requires i < NPTE && j < NPTE && k < NPTE
    ensures Px2(Vpn(i, j, k)) == i && Px1(Vpn(i, j, k)) == j && Px0(Vpn(i, j, k)) == k
  {
    var v := Vpn(i, j, k);
    assert v / NPTE == i * NPTE + j;
    assert v / 0x4_0000 == v / NPTE / NPTE;
    assert (i * NPTE + j) / NPTE == i;
  }

  /** No two pages below MAXVA share all three indices. */
  lemma PxInjective(v: nat, w: nat)
    requires v < MAXV && w < MAXV && Px2(v) == Px2(w) && Px1(v) == Px1(w) && Px0(v) == Px0(w)
    ensures v == w
  {
    VpnOfPx(v);
    VpnOfPx(w);
  }

  // --------------------------------------------------- page-table entries

  /** The permission bits. */
  datatype Perm = Perm(r: bool, w: bool, x: bool, u: bool)

  /** A page-table entry: PTE_V, the physical page number, the permissions. */
  datatype Pte = Pte(v: bool, page: nat, perm: Perm) {
    /** An entry with none of R, W and X points to a lower-level table. */
    predicate Leaf() { perm.r || perm.w || perm.x }
  }

  const NONE: Perm := Perm(false, false, false, false)
  const ZERO: Pte := Pte(false, 0, NONE)

  function Bit(b: bool): (n: nat) { if b then 1 else 0 }

  /** The low ten bits of an entry. */
  function Flags(e: Pte): (f: nat)
    ensures f < 32
  {
    Bit(e.v) + 2 * Bit(e.perm.r) + 4 * Bit(e.perm.w) + 8 * Bit(e.perm.x) + 16 * Bit(e.perm.u)
  }

  function PA2PTE(pa: nat): (w: nat) { pa / 4096 * 1024 }

  function PTE2PA(w: nat): (pa: nat) { w / 1024 * 4096 }

  function PteFlags(w: nat): (f: nat) { w % 1024 }

  /** The 64-bit word for an entry. */
  function Encode(e: Pte): (w: nat) {
    PA2PTE(e.page * PGSIZE) + Flags(e)
  }

  function Decode(w: nat): (e: Pte) {
    var f := PteFlags(w);
    Pte(f % 2 == 1, PTE2PA(w) / PGSIZE, Perm(f / 2 % 2 == 1, f / 4 % 2 == 1, f / 8 % 2 == 1, f / 16 % 2 == 1))
  }

  lemma FlagBits(e: Pte)
    ensures var f := Flags(e);
            && (f % 2 == 1 <==> e.v) && (f / 2 % 2 == 1 <==> e.perm.r) && (f / 4 % 2 == 1 <==> e.perm.w)
            && (f / 8 % 2 == 1 <==> e.perm.x) && (f / 16 % 2 == 1 <==> e.perm.u)
  {
  }

  /** Address and flags come back out of the word, and a zero word is an invalid entry. */
  lemma PteRoundTrip(e: Pte)
    ensures Decode(Encode(e)) == e
    ensures PTE2PA(Encode(e)) == e.page * PGSIZE && PteFlags(Encode(e)) == Flags(e)
    ensures Encode(ZERO) == 0
  {
    assert e.page * PGSIZE / 4096 == e.page;
    assert Encode(e) / 1024 == e.page && Encode(e) % 1024 == Flags(e);
    FlagBits(e);
  }
}
