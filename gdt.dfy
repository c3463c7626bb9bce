/**
 * The 64-bit GDT, its TSS descriptor and the TSS itself (gdt.c, gdt.h).
 * Section 3.4.5 of the Intel SDM Vol. 3A gives the segment-descriptor
 * layout; sections 7.2.3 and 7.7 give the 16-byte TSS descriptor and the
 * 104-byte 64-bit TSS.
 */
module Gdt {
  import opened Common

  /** `ARC_GDTEntry`: 8 packed bytes. */
  datatype GdtEntry = GdtEntry(limit: bv16, base1: bv16, base2: bv8, access: bv8, flagsLimit: bv8, base3: bv8)

  /** `ARC_TSSEntry`: the 8-byte layout, then the upper half of the base and a reserved dword. */
  datatype TssEntry = TssEntry(limit: bv16, base1: bv16, base2: bv8, access: bv8, flagsLimit: bv8, base3: bv8,
                               base4: bv32, resv: bv32)

  /** A zeroed entry. */
  const NullEntry := GdtEntry(0, 0, 0, 0, 0, 0)
  const NullTssEntry := TssEntry(0, 0, 0, 0, 0, 0, 0, 0)

  /** Entries in `ARC_GDTRegister.gdt`. */
  const GdtEntries: nat := 8

  /** Byte sizes of the packed structures. */
  const GdtEntrySize: nat := 8
  const TssEntrySize: nat := 16
  /** `reg`: a 16-bit size and a 64-bit base, packed. */
  const RegSize: nat := 2 + 8
  const GdtRegisterSize: nat := GdtEntries * GdtEntrySize + TssEntrySize + RegSize

  /** Byte offsets inside `ARC_GDTRegister`. */
  function TssEntryOffset(): nat { GdtEntries * GdtEntrySize }
  function RegOffset(): nat { TssEntryOffset() + TssEntrySize }

  /** `ARC_TSSDescriptor`: 25 dwords and two 16-bit words. */
  const TssDwords: nat := 25
  const TssSize: nat := TssDwords * 4 + 2 + 2

  /** `sizeof(*tss) - 1`, the limit gdt_use_tss gives the TSS descriptor. */
  const TssLimitValue: bv32 := 103

  /** Dword slots of the TSS fields init_tss writes. */
  const Rsp0Low: nat := 1
  const Rsp0High: nat := 2
  const Ist1Low: nat := 9
  const Ist1High: nat := 10

  /** The layout places the TSS descriptor right after the 8 entries and `reg` after it, and the TSS selector at 64. */
  lemma RegisterLayout()
    ensures TssEntryOffset() == 64 && RegOffset() == 80 && GdtRegisterSize == 90
    ensures GdtRegisterSize - 1 - RegSize == 79 == RegOffset() - 1
  {
  }

  /** rsp0 sits at byte 4, ist1 at byte 36, and the I/O-map base (after 25 dwords and `resv5`) at byte 102; the TSS is 104 bytes. */
  lemma TssLayout()
    ensures Rsp0Low * 4 == 4 && Ist1Low * 4 == 36 && TssDwords * 4 + 2 == 102 && TssSize == 104
    ensures TssLimitValue as int == TssSize - 1
    ensures Rsp0High == Rsp0Low + 1 && Ist1High == Ist1Low + 1
  {
  }

  /** The 32-bit base an entry's three base fields hold. */
  function EntryBase(e: GdtEntry): bv32
  {
    e.base1 as bv32 | ((e.base2 as bv32) << 16) | ((e.base3 as bv32) << 24)
  }

  /** The 20-bit limit: the 16-bit field plus the low nibble of `flags_limit`. */
  function EntryLimit(e: GdtEntry): bv32
  {
    e.limit as bv32 | (((e.flagsLimit & 0x0F) as bv32) << 16)
  }

  /** The 4 flag bits: the high nibble of `flags_limit`. */
  function EntryFlags(e: GdtEntry): bv8
  {
    e.flagsLimit >> 4
  }

  /** The entry set_gdt_gate writes. */
  function GdtGate(base: bv32, limit: bv32, access: bv8, flags: bv8): (e: GdtEntry)
    ensures EntryBase(e) == base
    ensures EntryLimit(e) == limit & 0xF_FFFF && EntryFlags(e) == flags & 0x0F && e.access == access
  {
    GdtEntry((limit & 0xFFFF) as bv16, (base & 0xFFFF) as bv16, ((base >> 16) & 0xFF) as bv8, access,
             ((flags & 0x0F) << 4) | ((limit >> 16) & 0x0F) as bv8, ((base >> 24) & 0xFF) as bv8)
  }

  /** The 64-bit base a TSS descriptor's four base fields hold. */
  function TssBase(t: TssEntry): bv64
  {
    t.base1 as bv64 | ((t.base2 as bv64) << 16) | ((t.base3 as bv64) << 24) | ((t.base4 as bv64) << 32)
  }

  function TssLimit(t: TssEntry): bv32
  {
    t.limit as bv32 | (((t.flagsLimit & 0x0F) as bv32) << 16)
  }

  /** The TSS descriptor set_tss_gate writes; `resv` stays as it was. */
  function TssGate(old_: TssEntry, base: bv64, limit: bv32, access: bv8, flags: bv8): (t: TssEntry)
    ensures TssBase(t) == base && t.resv == old_.resv
    ensures TssLimit(t) == limit & 0xF_FFFF && t.flagsLimit >> 4 == flags & 0x0F && t.access == access
  {
    TssEntry((limit & 0xFFFF) as bv16, (base & 0xFFFF) as bv16, ((base >> 16) & 0xFF) as bv8, access,
             ((flags & 0x0F) << 4) | ((limit >> 16) & 0x0F) as bv8, ((base >> 24) & 0xFF) as bv8,
             ((base >> 32) & 0xFFFF_FFFF) as bv32, old_.resv)
  }

  /** A TSS as its 25 dwords and the final `resv5` and `io_port_bmp_off` words. */
  datatype Tss = Tss(dwords: seq<bv32>, resv5: bv16, ioMapBase: bv16)

  /** The TSS init_tss builds: all zero except rsp0 and ist1, stored as low and high halves. */
  function InitialTss(ist1: bv64, rsp0: bv64): (t: Tss)
    ensures |t.dwords| == TssDwords && t.resv5 == 0 && t.ioMapBase == 0
    ensures ((t.dwords[Rsp0High] as bv64) << 32) | t.dwords[Rsp0Low] as bv64 == rsp0
    ensures ((t.dwords[Ist1High] as bv64) << 32) | t.dwords[Ist1Low] as bv64 == ist1
    ensures forall k :: 0 <= k < TssDwords && k !in {Rsp0Low, Rsp0High, Ist1Low, Ist1High} ==> t.dwords[k] == 0
  {
    var zero := seq(TssDwords, _ => 0 as bv32);
    Tss(zero[Ist1Low := (ist1 & 0xFFFF_FFFF) as bv32][Ist1High := ((ist1 >> 32) & 0xFFFF_FFFF) as bv32]
            [Rsp0Low := (rsp0 & 0xFFFF_FFFF) as bv32][Rsp0High := ((rsp0 >> 32) & 0xFFFF_FFFF) as bv32],
        0, 0)
  }

  /** init_tss: None when the allocation fails, else the TSS InitialTss describes. */
  function InitTss(obtained: bool, ist1: bv64, rsp0: bv64): (r: Option<Tss>)
    ensures r == None <==> !obtained
    ensures r != None ==> r.value == InitialTss(ist1, rsp0)
  {
    if !obtained then None else Some(InitialTss(ist1, rsp0))
  }

  /** The (access, flags) pairs init_gdt installs in entries 1-4: kernel code, kernel data, user data, user code. */
  function StandardAccess(i: nat): bv8
  {
    if i == 1 then 0x9A else if i == 2 then 0x92 else if i == 3 then 0xF2 else 0xFA
  }

  function StandardFlags(i: nat): bv8
  {
    if i == 1 || i == 4 then 0xA else 0xC
  }

  /** The entries init_gdt leaves: 0 and 5-7 null, 1-4 flat segments. */
  function InitialEntry(i: int): GdtEntry
  {
    if 1 <= i <= 4 then GdtGate(0, 0xFFFF_FFFF, StandardAccess(i), StandardFlags(i)) else NullEntry
  }

  /** Entries 1-4 cover base 0 with limit 0xFFFFF and the listed access and flags; the others are null. */
  lemma InitialEntries(i: nat)
    requires i < GdtEntries
    ensures 1 <= i <= 4 ==>
              EntryBase(InitialEntry(i)) == 0 && EntryLimit(InitialEntry(i)) == 0xF_FFFF &&
              InitialEntry(i).access == StandardAccess(i) && EntryFlags(InitialEntry(i)) == StandardFlags(i)
    ensures !(1 <= i <= 4) ==> InitialEntry(i) == NullEntry
    ensures i == 1 ==> InitialEntry(i).access == 0x9A && EntryFlags(InitialEntry(i)) == 0xA
    ensures i == 4 ==> InitialEntry(i).access == 0xFA && EntryFlags(InitialEntry(i)) == 0xA
  {
  }

  /** `ARC_GDTRegister`: the 8 entries, the TSS descriptor and the `lgdt` operand. */
  class GdtRegister {
    const address: bv64
    const gdt: array<GdtEntry>
    var tss: TssEntry
    var size: bv16
    var base: bv64

    ghost predicate Valid()
      reads this
    {
      gdt.Length == GdtEntries
    }

    /** The zeroed structure `memset` leaves at `address`. */
    constructor (address: bv64)
      ensures Valid() && this.address == address && fresh(gdt)
      ensures gdt[..] == seq(GdtEntries, _ => NullEntry) && tss == NullTssEntry && size == 0 && base == 0
    {
      this.address := address;
      gdt := new GdtEntry[GdtEntries](_ => NullEntry);
      tss := NullTssEntry;
      size := 0;
      base := 0;
    }

    /** set_gdt_gate: an index of 8 or more changes nothing; otherwise entry i becomes GdtGate. */
    method SetGdtGate(i: int, base: bv32, limit: bv32, access: bv8, flags: bv8)
      requires Valid() && 0 <= i
      modifies gdt
      ensures i >= GdtEntries ==> gdt[..] == old(gdt[..])
      ensures i < GdtEntries ==> gdt[..] == old(gdt[..])[i := GdtGate(base, limit, access, flags)]
    {
      if i >= 8 {
        return;
      }
      gdt[i] := GdtGate(base, limit, access, flags);
    }

    /** set_tss_gate: the TSS descriptor becomes TssGate; nothing else changes. */
    method SetTssGate(base: bv64, limit: bv32, access: bv8, flags: bv8)
      modifies this
      ensures tss == TssGate(old(tss), base, limit, access, flags)
      ensures size == old(size) && this.base == old(this.base)
    {
      tss := TssGate(tss, base, limit, access, flags);
    }

    /**
     * gdt_use_tss: describe the TSS at `tssAddress` (limit 103, access 0x89,
     * flags 0) and return the selector handed to `_install_tss`: the byte
     * size of the 8 entries.
     */
    method UseTss(tssAddress: bv64) returns (selector: nat)
      modifies this
      ensures tss == TssGate(old(tss), tssAddress, TssLimitValue, 0x89, 0)
      ensures TssBase(tss) == tssAddress && TssLimit(tss) == 103 && tss.access == 0x89
      ensures selector == TssEntryOffset() == 64
      ensures size == old(size) && base == old(base)
    {
      SetTssGate(tssAddress, TssLimitValue, 0x89, 0x0);
      selector := GdtEntries * GdtEntrySize;
    }
  }

  /**
   * init_gdt: None when the allocation (`allocation`, the address it
   * returns or None) fails; otherwise a zeroed register with entries 1-4
   * set, `reg.size` 79 (the last byte of the TSS descriptor) and
   * `reg.base` its own address.
   */
  method InitGdt(allocation: Option<bv64>) returns (r: Option<GdtRegister>)
    ensures allocation == None <==> r == None
    ensures r != None ==> fresh(r.value) && fresh(r.value.gdt) && r.value.Valid()
    ensures r != None ==> r.value.gdt[..] == seq(GdtEntries, i => InitialEntry(i))
    ensures r != None ==> r.value.tss == NullTssEntry && r.value.size == 79 && r.value.base == allocation.value
  {
    if allocation == None {
      return None;
    }
    var gdtr := new GdtRegister(allocation.value);
    gdtr.SetGdtGate(1, 0, 0xFFFF_FFFF, 0x9A, 0xA);
    gdtr.SetGdtGate(2, 0, 0xFFFF_FFFF, 0x92, 0xC);
    gdtr.SetGdtGate(3, 0, 0xFFFF_FFFF, 0xF2, 0xC);
    gdtr.SetGdtGate(4, 0, 0xFFFF_FFFF, 0xFA, 0xA);
    gdtr.size := (GdtRegisterSize - 1 - RegSize) as bv16;
    gdtr.base := gdtr.address;
    assert gdtr.gdt[..] == seq(GdtEntries, i => InitialEntry(i));
    return Some(gdtr);
  }
}
