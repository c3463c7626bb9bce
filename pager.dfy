/**
 * The x86-64 page-table manager (pager.c).
 *
 * Page tables are 4-level radix trees of 512-entry tables (PML4, PML3 = PDPT,
 * PML2 = PD, PML1 = PT).  Physical memory is a map from the physical address
 * of a table to its 512 entries; a frame that is absent from the map reads as
 * all zeroes.  Tables are named by physical address throughout: the higher-half
 * direct map (HHDM) that the source uses to turn physical addresses into
 * pointers is a fixed offset, so comparing pointers is comparing addresses.
 * The page allocator is the sequence of pages it will hand out next (empty
 * means it returns NULL), `invlpg` and `pmm_fast_page_free` are logs.
 */
module Pager {
  import opened Common

  const AddressMask: bv64 := 0x000F_FFFF_FFFF_F000
  const TwoMib: nat := 0x20_0000
  const OneGib: nat := 0x4000_0000
  const EntryCount: nat := 512

  /** `entry & ADDRESS_MASK`: the physical frame an entry points at. */
  function FrameOf(entry: bv64): bv64
  {
    entry & AddressMask
  }

  /** `address | bits`: an entry built from a frame address and flag bits. */
  function MakeEntry(address: bv64, bits: bv64): bv64
  {
    address | bits
  }

  /** Bit 7 (PS) of an entry: a 1 GiB or 2 MiB page rather than a table. */
  predicate LargePage(entry: bv64)
  {
    (entry >> 7) & 1 == 1
  }

  // ---------------------------------------------------------------------------
  // Attribute word (the ARC_PAGER_* bit positions of arch/pager.h)
  // ---------------------------------------------------------------------------

  /** ARC_PAGER_4K (bit 0): use 4 KiB pages only. */
  predicate Force4K(a: bv32) { a & 0x1 != 0 }
  /** ARC_PAGER_US (bit 1): user accessible. */
  predicate User(a: bv32) { a & 0x2 != 0 }
  /** ARC_PAGER_RW (bit 2): writable. */
  predicate Writable(a: bv32) { a & 0x4 != 0 }
  /** ARC_PAGER_NX (bit 3): not executable. */
  predicate NoExecute(a: bv32) { a & 0x8 != 0 }
  /** ARC_PAGER_OVW (bit 4): clone may overwrite a present entry. */
  predicate Overwrite(a: bv32) { a & 0x10 != 0 }
  /** ARC_PAGER_RESV0 (bit 5): traverse's "this step is a 1 GiB page". */
  predicate GibStep(a: bv32) { a & 0x20 != 0 }
  /** ARC_PAGER_RESV1 (bit 6): traverse's "this step is a 2 MiB page". */
  predicate MibStep(a: bv32) { a & 0x40 != 0 }
  /** ARC_PAGER_RESV2 (bit 7): never create directory tables. */
  predicate NoCreate(a: bv32) { a & 0x80 != 0 }
  /** ARC_PAGER_PAT (bits 8-10): the PAT index. */
  function PatIndex(a: bv32): bv32 { (a >> 8) & 0x7 }
  /** MASKED_READ(attributes, ARC_PAGER_AUTO_USRW_DISABLE, 0xF) (bits 11-14). */
  function UsrwDisable(a: bv32): nat { ((a >> 11) & 0xF) as nat }

  /** Kernel paging feature ARC_PAGER_FLAG_NO_EXEC (bit 0, as FLAGS_NO_EXEC). */
  predicate NoExecFeature(f: bv32) { f & 0x1 != 0 }
  /** Kernel paging feature ARC_PAGER_FLAG_1_GIB (bit 1, as FLAGS_1GIB). */
  predicate GibFeature(f: bv32) { f & 0x2 != 0 }

  /** `attributes |= 1 << ARC_PAGER_4K`, as pager_fly_map does. */
  function WithForce4K(a: bv32): (r: bv32)
    ensures Force4K(r)
  {
    a | 1
  }

  /** `a` and `b` agree on every attribute bit except RESV0 and RESV1 (bits 5 and 6). */
  predicate SameBesidesStepBits(a: bv32, b: bv32)
  {
    a & !0x60 == b & !0x60
  }

  /** MASKED_WRITE(a, v, ARC_PAGER_RESV0, 1) followed by MASKED_WRITE(a, w, ARC_PAGER_RESV1, 1). */
  function WithStepBits(a: bv32, gib: bool, mib: bool): (r: bv32)
    ensures GibStep(r) == gib && MibStep(r) == mib
  {
    var g: bv32 := if gib then 1 else 0;
    var m: bv32 := if mib then 1 else 0;
    var a1 := (a & !(1 << 5)) | ((g & 1) << 5);
    (a1 & !(1 << 6)) | ((m & 1) << 6)
  }

  /** Recording the step choice touches no other attribute bit, ARC_PAGER_4K included. */
  lemma WithStepBitsKeepsOthers(a: bv32, gib: bool, mib: bool)
    ensures SameBesidesStepBits(WithStepBits(a, gib, mib), a)
    ensures Force4K(WithStepBits(a, gib, mib)) == Force4K(a)
  {
  }

  /** pager_traverse's can_gib: the feature is on, ARC_PAGER_4K is off and a whole GiB remains. */
  predicate CanGib(size: nat, a: bv32, features: bv32)
  {
    GibFeature(features) && !Force4K(a) && size >= OneGib
  }

  /** pager_traverse's can_2mib: ARC_PAGER_4K is off and a whole 2 MiB remains. */
  predicate Can2Mib(size: nat, a: bv32)
  {
    size >= TwoMib && !Force4K(a)
  }

  // ---------------------------------------------------------------------------
  // get_entry_bits
  // ---------------------------------------------------------------------------

  /**
   * Whether `us_rw_overwrite` survives for an entry at `level`: directories more
   * than AUTO_USRW_DISABLE + 1 levels up are made user-accessible and writable,
   * except a level-2 or level-3 entry that is a large page.
   */
  predicate ForcesUserWrite(level: nat, a: bv32)
  {
    level > UsrwDisable(a) + 1 && !(level == 2 && MibStep(a)) && !(level == 3 && GibStep(a))
  }

  /** get_entry_bits: the flag bits of a table entry at `level` for `attributes`. */
  function EntryBits(level: nat, attributes: bv32, features: bv32): bv64
  {
    var pat := PatIndex(attributes);
    var bits: bv64 := ((pat & 1) as bv64 << 2) | (((pat >> 1) & 1) as bv64 << 3);
    var pat2: bv64 := ((pat >> 2) & 1) as bv64;
    var overwrite: bool := level > UsrwDisable(attributes) + 1;
    var largeMib := level == 2 && MibStep(attributes);
    var largeGib := level == 3 && GibStep(attributes);
    var bits2 :=
      if level == 1 then bits | (pat2 << 7)
      else if level == 2 || level == 3 then bits | (pat2 << 12) | (if largeMib || largeGib then 0x80 else 0)
      else bits;
    var ow: bv64 := if overwrite && !largeMib && !largeGib then 1 else 0;
    var us: bv64 := ((attributes >> 1) & 1) as bv64;
    var rw: bv64 := ((attributes >> 2) & 1) as bv64;
    var nx: bv64 := ((attributes >> 3) & (features & 1)) as bv64;
    bits2 | ((us | ow) << 2) | ((rw | ow) << 1) | (nx << 63) | 1
  }

  /**
   * What each bit of get_entry_bits means: present is always set; bit 1 is
   * RW or the forced user/write; bit 2 is PAT bit 0, US or the forced
   * user/write (PWT and US share it); bit 3 is PAT bit 1; bit 7 is PAT bit 2 at
   * level 1 and the large-page bit at levels 2 and 3; bit 12 is PAT bit 2 at
   * levels 2 and 3; bit 63 is NX only when the kernel enables no-execute; no
   * other bit is ever set.
   */
  lemma EntryBitsMeaning(level: nat, a: bv32, f: bv32)
    ensures var bits := EntryBits(level, a, f);
      && bits & 0x1 != 0
      && (bits & 0x2 != 0 <==> Writable(a) || ForcesUserWrite(level, a))
      && (bits & 0x4 != 0 <==> PatIndex(a) & 1 != 0 || User(a) || ForcesUserWrite(level, a))
      && (bits & 0x8 != 0 <==> PatIndex(a) & 2 != 0)
      && (bits & 0x80 != 0 <==>
            (level == 1 && PatIndex(a) & 4 != 0) || (level == 2 && MibStep(a)) || (level == 3 && GibStep(a)))
      && (bits & 0x1000 != 0 <==> (level == 2 || level == 3) && PatIndex(a) & 4 != 0)
      && (bits & 0x8000_0000_0000_0000 != 0 <==> NoExecute(a) && NoExecFeature(f))
      && bits & !0x8000_0000_0000_108F == 0
  {
  }

  /**
   * At levels 2 and 3 PAT bit 2 is placed at bit 12, which lies inside
   * ADDRESS_MASK: a directory entry get_page_table creates there carries it in
   * its address part.
   */
  lemma EntryBitsAddressPart(level: nat, a: bv32, f: bv32)
    ensures EntryBits(level, a, f) & AddressMask ==
            if (level == 2 || level == 3) && PatIndex(a) & 4 != 0 then 0x1000 else 0
  {
    EntryBitsMeaning(level, a, f);
  }

  // ---------------------------------------------------------------------------
  // Physical memory
  // ---------------------------------------------------------------------------

  /**
   * Physical memory as 64-bit words: the entry at `index` of the table whose
   * physical address is `table` is keyed by (table, index).  A word that was
   * never written reads as zero.
   */
  type Memory = map<(bv64, nat), bv64>

  /** `table[index]`. */
  function Load(m: Memory, table: bv64, index: nat): bv64
  {
    if (table, index) in m then m[(table, index)] else 0
  }

  /** `table[index] = value`. */
  function StoreEntry(m: Memory, table: bv64, index: nat, value: bv64): Memory
  {
    m[(table, index) := value]
  }

  /** memset(address, 0, PAGE_SIZE) on the table at `a`. */
  function ZeroPage(m: Memory, a: bv64): Memory
  {
    map k | k in m && k.0 != a :: m[k]
  }

  /** A store is read back, and every other entry of every table keeps its value. */
  lemma LoadStoreEntry(m: Memory, table: bv64, index: nat, value: bv64, t: bv64, i: nat)
    ensures Load(StoreEntry(m, table, index, value), t, i) ==
            if t == table && i == index then value else Load(m, t, i)
  {
  }

  /** After zeroing, every entry of the frame reads zero and every other frame is unchanged. */
  lemma LoadZeroPage(m: Memory, a: bv64, t: bv64, i: nat)
    ensures Load(ZeroPage(m, a), t, i) == if t == a then 0 else Load(m, t, i)
  {
  }

  // ---------------------------------------------------------------------------
  // Indices
  // ---------------------------------------------------------------------------

  /** `(virtual >> ((level - 1) * 9 + 12)) & 0x1FF`: the index at `level` (4 = PML4). */
  function TableIndex(virtual: bv64, level: nat): (i: nat)
    requires 1 <= level <= 4
    ensures i < EntryCount
  {
    IndexBits(virtual, level) as nat
  }

  function IndexBits(virtual: bv64, level: nat): (b: bv64)
    requires 1 <= level <= 4
    ensures b < 512
  {
    var shifted := if level == 1 then virtual >> 12 else if level == 2 then virtual >> 21
                   else if level == 3 then virtual >> 30 else virtual >> 39;
    shifted & 0x1FF
  }

  // ---------------------------------------------------------------------------
  // get_page_table's creation rule and traverse's granularity
  // ---------------------------------------------------------------------------

  /**
   * Whether get_page_table allocates a new table under an entry: the entry is
   * absent, RESV2 is clear, the parent is not a PML1, and either the parent is
   * the PML4, or no large page is being made at this level, or 4K is forced.
   */
  predicate CreatesTable(level: nat, a: bv32, entry: bv64)
  {
    !NoCreate(a) && entry & 1 == 0 && level != 1
    && (level == 4 || (level == 3 && !GibStep(a)) || (level == 2 && !MibStep(a)) || Force4K(a))
  }

  /** A present entry is never replaced, and nothing is created under a PML1 or with RESV2 set. */
  lemma CreatesOnlyAbsentEntries(level: nat, a: bv32, entry: bv64)
    ensures CreatesTable(level, a, entry) ==> entry & 1 == 0 && level != 1 && !NoCreate(a)
    ensures level == 4 && entry & 1 == 0 && !NoCreate(a) ==> CreatesTable(level, a, entry)
  {
  }

  /** The bytes one traverse iteration consumes when `size` bytes remain. */
  function Granule(size: nat, a: bv32, features: bv32): nat
  {
    if CanGib(size, a, features) then OneGib
    else if Can2Mib(size, a) then TwoMib
    else PageSize
  }

  /** The sequence of step sizes the traverse loop takes for `size` bytes. */
  function Schedule(size: nat, a: bv32, features: bv32): seq<nat>
    requires size % PageSize == 0
    decreases size
  {
    if size == 0 then []
    else
      GranuleFits(size, a, features);
      [Granule(size, a, features)] + Schedule(size - Granule(size, a, features), a, features)
  }

  lemma GranuleFits(size: nat, a: bv32, features: bv32)
    requires size % PageSize == 0 && size > 0
    ensures Granule(size, a, features) <= size
    ensures (size - Granule(size, a, features)) % PageSize == 0
  {
  }

  function Sum(s: seq<nat>): nat
  {
    if s == [] then 0 else s[0] + Sum(s[1..])
  }

  lemma {:induction false} SumAppend(s: seq<nat>, t: seq<nat>)
    ensures Sum(s + t) == Sum(s) + Sum(t)
  {
    if s != [] {
      assert (s + t)[0] == s[0];
      assert (s + t)[1..] == s[1..] + t;
      SumAppend(s[1..], t);
    } else {
      assert s + t == t;
    }
  }

  /** The steps cover the range exactly, each is 4 KiB, 2 MiB or 1 GiB, and 1 GiB only with the feature and without 4K. */
  lemma {:induction false} ScheduleCovers(size: nat, a: bv32, features: bv32)
    requires size % PageSize == 0
    ensures Sum(Schedule(size, a, features)) == size
    ensures forall k :: 0 <= k < |Schedule(size, a, features)| ==>
              Schedule(size, a, features)[k] in {PageSize, TwoMib, OneGib}
    ensures forall k :: 0 <= k < |Schedule(size, a, features)| && Schedule(size, a, features)[k] == OneGib ==>
              GibFeature(features) && !Force4K(a)
    decreases size
  {
    if size > 0 {
      GranuleFits(size, a, features);
      ScheduleCovers(size - Granule(size, a, features), a, features);
    }
  }

  /** With ARC_PAGER_4K every step is 4 KiB: size / 4096 steps. */
  lemma {:induction false} ScheduleForced4K(size: nat, a: bv32, features: bv32)
    requires size % PageSize == 0 && Force4K(a)
    ensures Schedule(size, a, features) == seq(size / PageSize, _ => PageSize)
    decreases size
  {
    if size > 0 {
      ScheduleForced4K(size - PageSize, a, features);
    }
  }

  // ---------------------------------------------------------------------------
  // struct pager_traverse_info and the callbacks
  // ---------------------------------------------------------------------------

  /** struct pager_traverse_info. Table pointers are physical addresses; None is NULL. */
  datatype Info = Info(
    srcTable: Option<bv64>,
    destTable: Option<bv64>,
    curTable: bv64,
    virtual: bv64,
    physical: bv64,
    size: nat,
    attributes: bv32,
    pml4e: nat,
    pml3e: nat,
    pml2e: nat,
    pml1e: nat)
  {
    ghost predicate Indices()
    {
      pml4e < EntryCount && pml3e < EntryCount && pml2e < EntryCount && pml1e < EntryCount
    }
  }

  /** The per-leaf work a traversal does. */
  datatype Callback = MapPages | UnmapPages | FlyMapPages | FlyUnmapPages | SetAttributes | ClonePages

  /** 64-bit addition, wrapping as C's unsigned arithmetic does. */
  function Add(a: bv64, b: bv64): bv64
  {
    a + b
  }

  /** The 64-bit value of a step size (all three fit). */
  function StepValue(step: nat): bv64
  {
    if step == OneGib then 0x4000_0000 else if step == TwoMib then 0x20_0000 else 0x1000
  }

  /** info->virtual, info->physical and info->size all advance by one step. */
  function Advance(info: Info, step: nat): (r: Info)
    requires step <= info.size
    ensures r.size == info.size - step
  {
    info.(virtual := Add(info.virtual, StepValue(step)), physical := Add(info.physical, StepValue(step)),
          size := info.size - step)
  }

  /**
   * `start` moved on by each step in turn, wrapping like a `uintptr_t`:
   * the address a walk that began at `start` has reached.
   */
  function Walk(start: bv64, steps: seq<nat>): bv64
  {
    if steps == [] then start else Add(Walk(start, steps[..|steps| - 1]), StepValue(steps[|steps| - 1]))
  }

  lemma WalkSnoc(start: bv64, steps: seq<nat>, step: nat)
    ensures Walk(start, steps + [step]) == Add(Walk(start, steps), StepValue(step))
  {
    assert (steps + [step])[..|steps|] == steps;
  }

  lemma {:induction false} SumSnoc(steps: seq<nat>, step: nat)
    ensures Sum(steps + [step]) == Sum(steps) + step
  {
    SumAppend(steps, [step]);
    assert Sum([step]) == step by { assert [step][1..] == []; }
  }

  /** Taking one pass's step moves it from the schedule still ahead to the steps already taken. */
  lemma ScheduleAdvance(steps: seq<nat>, size: nat, a: bv32, features: bv32)
    requires size % PageSize == 0 && size > 0
    ensures Granule(size, a, features) <= size && (size - Granule(size, a, features)) % PageSize == 0
    ensures (steps + [Granule(size, a, features)]) + Schedule(size - Granule(size, a, features), a, features)
            == steps + Schedule(size, a, features)
  {
    GranuleFits(size, a, features);
    var g := Granule(size, a, features);
    assert Schedule(size, a, features) == [g] + Schedule(size - g, a, features);
  }

  /**
   * Where pager_traverse stands after taking `steps` from `info0`: the info
   * has moved on by those steps and nothing else, and they are the start of
   * the schedule for the whole range.
   */
  ghost predicate Progress(info0: Info, info: Info, steps: seq<nat>, features: bv32, cb: Callback)
  {
    match cb
    case UnmapPages => Walked(info0, info, steps, features)
    case _ => Walked(info0, info, steps, features) && info.physical == Walk(info0.physical, steps)
  }

  /** Progress for the virtual side alone: unmap finds each physical address in the entry it clears. */
  ghost predicate Walked(info0: Info, info: Info, steps: seq<nat>, features: bv32)
  {
    info0.size % PageSize == 0 && info.size % PageSize == 0 && info.Indices()
    && info.srcTable == info0.srcTable && info.destTable == info0.destTable && info.curTable == info0.curTable
    && Force4K(info.attributes) == Force4K(info0.attributes)
    && steps + Schedule(info.size, info0.attributes, features) == Schedule(info0.size, info0.attributes, features)
    && info.virtual == Walk(info0.virtual, steps)
  }

  lemma ProgressStart(info0: Info, features: bv32, cb: Callback)
    requires info0.size % PageSize == 0 && info0.Indices()
    ensures Progress(info0, info0, [], features, cb)
  {
    assert [] + Schedule(info0.size, info0.attributes, features) == Schedule(info0.size, info0.attributes, features);
  }

  /** A pass that fails leaves the position where it was. */
  lemma ProgressStay(info0: Info, before: Info, info: Info, steps: seq<nat>, features: bv32, cb: Callback)
    requires Progress(info0, before, steps, features, cb) && info.Indices()
    requires info.srcTable == before.srcTable && info.destTable == before.destTable && info.curTable == before.curTable
    requires info.size == before.size && info.virtual == before.virtual
    requires cb != UnmapPages ==> info.physical == before.physical
    requires info.attributes == WithStepBits(before.attributes, CanGib(before.size, before.attributes, features),
                                             Can2Mib(before.size, before.attributes))
    ensures Progress(info0, info, steps, features, cb)
  {
    WithStepBitsKeepsOthers(before.attributes, CanGib(before.size, before.attributes, features),
                            Can2Mib(before.size, before.attributes));
  }

  /** A pass that succeeds adds its step to those taken, on the virtual side. */
  lemma WalkedStep(info0: Info, before: Info, info: Info, steps: seq<nat>, step: nat, features: bv32)
    requires Walked(info0, before, steps, features) && before.size > 0 && info.Indices()
    requires step == Granule(before.size, before.attributes, features) && step <= before.size
    requires info.srcTable == before.srcTable && info.destTable == before.destTable && info.curTable == before.curTable
    requires info.size == before.size - step && info.virtual == Add(before.virtual, StepValue(step))
    requires info.attributes == WithStepBits(before.attributes, CanGib(before.size, before.attributes, features),
                                             Can2Mib(before.size, before.attributes))
    ensures Walked(info0, info, steps + [step], features)
  {
    WithStepBitsKeepsOthers(before.attributes, CanGib(before.size, before.attributes, features),
                            Can2Mib(before.size, before.attributes));
    ScheduleByForce4K(before.size, before.attributes, info0.attributes, features);
    ScheduleAdvance(steps, before.size, info0.attributes, features);
    WalkSnoc(info0.virtual, steps, step);
  }

  /** A pass that succeeds adds its step to those taken. */
  lemma ProgressStep(info0: Info, before: Info, info: Info, steps: seq<nat>, step: nat, features: bv32, cb: Callback)
    requires Progress(info0, before, steps, features, cb) && before.size > 0 && info.Indices()
    requires step == Granule(before.size, before.attributes, features) && step <= before.size
    requires info.srcTable == before.srcTable && info.destTable == before.destTable && info.curTable == before.curTable
    requires info.size == before.size - step && info.virtual == Add(before.virtual, StepValue(step))
    requires cb != UnmapPages ==> info.physical == Add(before.physical, StepValue(step))
    requires info.attributes == WithStepBits(before.attributes, CanGib(before.size, before.attributes, features),
                                             Can2Mib(before.size, before.attributes))
    ensures Progress(info0, info, steps + [step], features, cb)
  {
    WalkedStep(info0, before, info, steps, step, features);
    WalkSnoc(info0.physical, steps, step);
  }

  /** 2^64: `size_t` arithmetic wraps modulo this. */
  const SizeModulus: int := 0x1_0000_0000_0000_0000

  /** `info->size -= step` on a `size_t`. */
  function SizeAfterStep(size: nat, step: nat): (r: nat)
    requires size < SizeModulus && step < SizeModulus
    ensures r < SizeModulus
    ensures size >= step ==> r == size - step
    ensures size < step ==> r > size
  {
    (size - step) % SizeModulus
  }

  /**
   * With half a page left, pager_traverse takes a 4 KiB step and its size
   * wraps to nearly 2^64 instead of reaching 0, so the loop walks on.
   */
  lemma UnalignedSizeWraps()
    ensures Granule(0x800, 0, 0) == PageSize
    ensures SizeAfterStep(0x800, Granule(0x800, 0, 0)) == SizeModulus - 0x800
  {
  }

  /** A traversal that ran to the end took exactly the schedule for the whole range. */
  lemma TraverseDone(info0: Info, info: Info, steps: seq<nat>, features: bv32, cb: Callback)
    requires Progress(info0, info, steps, features, cb) && info.size == 0
    ensures steps == Schedule(info0.size, info0.attributes, features) && Sum(steps) == info0.size
  {
    assert steps + [] == steps;
    ScheduleCovers(info0.size, info0.attributes, features);
  }

  /** The step choice depends on the attributes only through ARC_PAGER_4K. */
  lemma {:induction false} ScheduleByForce4K(size: nat, a: bv32, b: bv32, features: bv32)
    requires size % PageSize == 0 && Force4K(a) == Force4K(b)
    ensures Granule(size, a, features) == Granule(size, b, features)
    ensures Schedule(size, a, features) == Schedule(size, b, features)
    decreases size
  {
    if size > 0 {
      GranuleFits(size, a, features);
      ScheduleByForce4K(size - Granule(size, a, features), a, b, features);
    }
  }

  /** What a descent may not change in the traverse info: all but the indices, and info->physical for unmap. */
  predicate SameWalk(info: Info, next: Info, cb: Callback)
  {
    next.srcTable == info.srcTable && next.destTable == info.destTable && next.curTable == info.curTable
    && next.virtual == info.virtual && next.size == info.size && next.attributes == info.attributes
    && (cb != UnmapPages ==> next.physical == info.physical)
  }

  /** info->pml4e, pml3e, pml2e or pml1e, by level, set to `index`. */
  function WithIndex(info: Info, level: nat, index: nat): (r: Info)
    requires 1 <= level <= 4 && index < EntryCount && info.Indices()
    ensures r.Indices() && SameWalk(info, r, MapPages) && r.physical == info.physical
  {
    match level
    case 4 => info.(pml4e := index)
    case 3 => info.(pml3e := index)
    case 2 => info.(pml2e := index)
    case _ => info.(pml1e := index)
  }

  /** The level a pass maps at: the PML3 for a 1 GiB step, the PML2 for 2 MiB, else the PML1. */
  predicate MapsAt(level: nat, canGib: bool, can2Mib: bool)
  {
    level == 1 || (level == 3 && canGib) || (level == 2 && can2Mib)
  }

  /** pager_traverse's code when get_page_table fails at `level`: -2, -3, -5, -7 for PML4 .. PML1. */
  function TableFailure(level: nat): (rc: int)
    ensures -7 <= rc <= -2
  {
    if level == 4 then -2 else if level == 3 then -3 else if level == 2 then -5 else -7
  }

  /** pager_traverse's code when the callback fails at `level`: -4, -6, -8 for PML3 .. PML1. */
  function CallbackFailure(level: nat): (rc: int)
    ensures -8 <= rc <= -4
  {
    if level == 3 then -4 else if level == 2 then -6 else -8
  }

  /**
   * The entry pager_clone_callback copies, found in the source tables by the
   * destination walk's indices; None when a level of the source is absent.
   */
  function CloneSource(m: Memory, src: bv64, info: Info): (r: Option<bv64>)
    requires info.Indices()
    ensures r.Some? ==> FrameOf(r.value) != 0
  {
    var pml3 := FrameOf(Load(m, src, info.pml4e));
    if pml3 == 0 then None
    else
      var e3 := Load(m, pml3, info.pml3e);
      var pml2 := FrameOf(e3);
      if pml2 == 0 then None
      else if LargePage(e3) then Some(e3)
      else
        var e2 := Load(m, pml2, info.pml2e);
        var pml1 := FrameOf(e2);
        if pml1 == 0 then None
        else if LargePage(e2) then Some(e2)
        else
          var e1 := Load(m, pml1, info.pml1e);
          if FrameOf(e1) == 0 then None else Some(e1)
  }

  /** `s` is what is left of `t` after taking some entries from its front (the page pool only shrinks). */
  predicate IsSuffix(s: seq<bv64>, t: seq<bv64>)
  {
    |s| <= |t| && s == t[|t| - |s|..]
  }

  lemma IsSuffixTrans(s: seq<bv64>, t: seq<bv64>, u: seq<bv64>)
    requires IsSuffix(s, t) && IsSuffix(t, u)
    ensures IsSuffix(s, u)
  {
  }

  /** A return code of pager_traverse. */
  predicate TraverseCode(rc: int)
  {
    rc == 0 || rc == -1 || rc == -2 || rc == -3 || rc == -4 || rc == -5 || rc == -6 || rc == -7 || rc == -8
  }

  // ---------------------------------------------------------------------------
  // pager_traverse as a function of the state it changes
  // ---------------------------------------------------------------------------

  /** What a traversal changes: the tables, the page pool, the frames freed and the addresses flushed. */
  datatype Tables = Tables(mem: Memory, pool: seq<bv64>, freed: seq<bv64>, flushed: seq<bv64>)

  /** A callback, a descent, a pass or a whole traversal: its code, the state after it and the info it leaves. */
  datatype Outcome = Outcome(rc: int, s: Tables, info: Info)

  /** What get_page_table leaves: the index (or -1) and the state. */
  datatype Indexed = Indexed(index: int, s: Tables)

  /** The invlpg log after a callback rewrites the entry for info->virtual. */
  function Flush(flushed: seq<bv64>, info: Info): seq<bv64>
  {
    flushed + (if info.destTable == Some(info.curTable) then [info.virtual] else [])
  }

  /**
   * What the callback `cb` does to `table[index]` at `level`: -1 and nothing
   * at level 0; otherwise the entry written as each callback writes it, or
   * -2 and nothing for fly-map without a page and for clone onto a used
   * slot without OVW.
   */
  function CallbackEffect(cb: Callback, s: Tables, features: bv32, info: Info, table: bv64, index: nat, level: nat)
    : (r: Outcome)
    requires cb == ClonePages ==> info.srcTable != None && info.Indices()
    ensures r.rc == 0 || r.rc == -1 || r.rc == -2
    ensures r.rc == -1 <==> level == 0
    ensures r.rc != 0 ==> r.s == s && r.info == info
    ensures r.rc == -2 ==> (cb == FlyMapPages && s.pool == []) || cb == ClonePages
    ensures SameWalk(info, r.info, cb) && (info.Indices() ==> r.info.Indices())
  {
    if level == 0 then Outcome(-1, s, info)
    else match cb
      case MapPages =>
        var e := MakeEntry(info.physical, EntryBits(level, info.attributes, features));
        Outcome(0, s.(mem := StoreEntry(s.mem, table, index, e), flushed := Flush(s.flushed, info)), info)
      case UnmapPages =>
        var next := info.(physical := if info.physical == 0 then FrameOf(Load(s.mem, table, index)) else info.physical);
        Outcome(0, s.(mem := StoreEntry(s.mem, table, index, 0), flushed := Flush(s.flushed, info)), next)
      case FlyMapPages =>
        if s.pool == [] then Outcome(-2, s, info)
        else
          var e := MakeEntry(s.pool[0], EntryBits(level, info.attributes, features));
          Outcome(0, s.(mem := StoreEntry(s.mem, table, index, e), pool := s.pool[1..], flushed := Flush(s.flushed, info)),
                  info)
      case FlyUnmapPages =>
        Outcome(0, s.(mem := StoreEntry(s.mem, table, index, 0), freed := s.freed + [FrameOf(Load(s.mem, table, index))],
                      flushed := Flush(s.flushed, info)), info)
      case SetAttributes =>
        var e := MakeEntry(FrameOf(Load(s.mem, table, index)), EntryBits(level, info.attributes, features));
        Outcome(0, s.(mem := StoreEntry(s.mem, table, index, e), flushed := Flush(s.flushed, info)), info)
      case ClonePages =>
        match CloneSource(s.mem, info.srcTable.value, info)
        case None => Outcome(0, s, info)
        case Some(e) =>
          if Load(s.mem, table, index) != 0 && !Overwrite(info.attributes) then Outcome(-2, s, info)
          else Outcome(0, s.(mem := StoreEntry(s.mem, table, index, e), flushed := Flush(s.flushed, info)), info)
  }

  /** A callback takes a page from the pool only when it is fly-map, and then only the first. */
  lemma CallbackPool(cb: Callback, s: Tables, features: bv32, info: Info, table: bv64, index: nat, level: nat)
    requires cb == ClonePages ==> info.srcTable != None && info.Indices()
    ensures var r := CallbackEffect(cb, s, features, info, table, index, level);
            (cb != FlyMapPages ==> r.s.pool == s.pool)
            && (cb == FlyMapPages ==> r.s.pool == s.pool || (s.pool != [] && r.s.pool == s.pool[1..]))
  {
  }

  /** A callback frees a frame only when it is fly-unmap, and then one frame, at the end. */
  lemma CallbackFreed(cb: Callback, s: Tables, features: bv32, info: Info, table: bv64, index: nat, level: nat)
    requires cb == ClonePages ==> info.srcTable != None && info.Indices()
    ensures var r := CallbackEffect(cb, s, features, info, table, index, level);
            (cb != FlyUnmapPages ==> r.s.freed == s.freed)
            && (cb == FlyUnmapPages ==> r.s.freed == s.freed
                                        || (|r.s.freed| == |s.freed| + 1 && r.s.freed[..|s.freed|] == s.freed))
  {
    if level != 0 && cb == FlyUnmapPages {
      assert (s.freed + [FrameOf(Load(s.mem, table, index))])[..|s.freed|] == s.freed;
    }
  }

  /** A callback flushes at most info->virtual, and only when it works on the loaded tables. */
  lemma CallbackFlushed(cb: Callback, s: Tables, features: bv32, info: Info, table: bv64, index: nat, level: nat)
    requires cb == ClonePages ==> info.srcTable != None && info.Indices()
    ensures var r := CallbackEffect(cb, s, features, info, table, index, level);
            (info.destTable != Some(info.curTable) ==> r.s.flushed == s.flushed)
            && (r.s.flushed == s.flushed || r.s.flushed == s.flushed + [info.virtual])
  {
  }

  /** Only unmap changes the info, and only its physical address. */
  lemma CallbackInfo(cb: Callback, s: Tables, features: bv32, info: Info, table: bv64, index: nat, level: nat)
    requires cb == ClonePages ==> info.srcTable != None && info.Indices()
    ensures var r := CallbackEffect(cb, s, features, info, table, index, level);
            r.info == info || (cb == UnmapPages && r.info == info.(physical := r.info.physical))
  {
  }

  /**
   * What a callback changes besides the entry: fly-map takes at most the
   * first page of the pool, fly-unmap adds at most one freed frame, each
   * flushes at most info->virtual and only unmap changes the info (its
   * physical address).
   */
  lemma CallbackFrame(cb: Callback, s: Tables, features: bv32, info: Info, table: bv64, index: nat, level: nat)
    requires cb == ClonePages ==> info.srcTable != None && info.Indices()
    ensures var r := CallbackEffect(cb, s, features, info, table, index, level);
            (cb != FlyMapPages ==> r.s.pool == s.pool)
            && (cb == FlyMapPages ==> r.s.pool == s.pool || (s.pool != [] && r.s.pool == s.pool[1..]))
            && IsSuffix(r.s.pool, s.pool)
            && (cb != FlyUnmapPages ==> r.s.freed == s.freed)
            && (cb == FlyUnmapPages ==> r.s.freed == s.freed
                                        || (|r.s.freed| == |s.freed| + 1 && r.s.freed[..|s.freed|] == s.freed))
            && (info.destTable != Some(info.curTable) ==> r.s.flushed == s.flushed)
            && (r.s.flushed == s.flushed || r.s.flushed == s.flushed + [info.virtual])
            && (r.info == info || (cb == UnmapPages && r.info == info.(physical := r.info.physical)))
  {
    CallbackPool(cb, s, features, info, table, index, level);
    CallbackFreed(cb, s, features, info, table, index, level);
    CallbackFlushed(cb, s, features, info, table, index, level);
    CallbackInfo(cb, s, features, info, table, index, level);
  }

  /** pager_clone_callback's outcome, as its method states it case by case, is CallbackEffect's. */
  lemma CloneAgrees(s: Tables, s': Tables, rc: int, features: bv32, info: Info, table: bv64, index: nat, level: nat)
    requires info.srcTable != None && info.Indices()
    requires s'.pool == s.pool && s'.freed == s.freed
    requires level == 0 ==> rc == -1 && s'.mem == s.mem && s'.flushed == s.flushed
    requires level != 0 ==>
      match CloneSource(s.mem, info.srcTable.value, info)
      case None => rc == 0 && s'.mem == s.mem && s'.flushed == s.flushed
      case Some(e) =>
        if Load(s.mem, table, index) != 0 && !Overwrite(info.attributes) then
          rc == -2 && s'.mem == s.mem && s'.flushed == s.flushed
        else
          rc == 0 && s'.mem == StoreEntry(s.mem, table, index, e) && s'.flushed == Flush(s.flushed, info)
    ensures var r := CallbackEffect(ClonePages, s, features, info, table, index, level); rc == r.rc && s' == r.s
  {
  }

  /**
   * get_page_table on the table `parent`: the index of `virtual` at
   * `level`, after installing a zeroed page from the pool under the entry
   * when CreatesTable says so; -1 and nothing changed when that page is
   * needed and the pool is empty.
   */
  function TableEffect(s: Tables, features: bv32, parent: bv64, level: nat, virtual: bv64, a: bv32): (r: Indexed)
    requires 1 <= level <= 4
    ensures r.index == -1 <==> CreatesTable(level, a, Load(s.mem, parent, TableIndex(virtual, level))) && s.pool == []
    ensures r.index != -1 ==> r.index == TableIndex(virtual, level)
    ensures r.index == -1 ==> r.s == s
    ensures r.s.pool == s.pool || (s.pool != [] && r.s.pool == s.pool[1..])
    ensures level == 1 ==> r.s.pool == s.pool
    ensures r.s.freed == s.freed && r.s.flushed == s.flushed
  {
    var i := TableIndex(virtual, level);
    if !CreatesTable(level, a, Load(s.mem, parent, i)) then Indexed(i, s)
    else if s.pool == [] then Indexed(-1, s)
    else
      var e := MakeEntry(s.pool[0], EntryBits(level, a, features));
      Indexed(i, s.(mem := StoreEntry(ZeroPage(s.mem, s.pool[0]), parent, i, e), pool := s.pool[1..]))
  }

  /** The level a pass runs its callback at: the PML3 for a 1 GiB step, the PML2 for 2 MiB, else the PML1. */
  function MapLevel(canGib: bool, can2Mib: bool): (l: nat)
    ensures 1 <= l <= 3 && MapsAt(l, canGib, can2Mib)
    ensures forall k :: l < k <= 4 ==> !MapsAt(k, canGib, can2Mib)
  {
    if canGib then 3 else if can2Mib then 2 else 1
  }

  /** The level the pass over `size` remaining bytes maps at, and so the step it takes. */
  function PassLevel(size: nat, a: bv32, features: bv32): (l: nat)
    ensures l == 3 <==> Granule(size, a, features) == OneGib
    ensures l == 2 <==> Granule(size, a, features) == TwoMib
    ensures l == 1 <==> Granule(size, a, features) == PageSize
  {
    MapLevel(CanGib(size, a, features), Can2Mib(size, a))
  }

  /**
   * The failure codes of a descent that starts at `level` and maps at
   * `mapLevel`: the table failure of a level it passes through, or the
   * callback failure of the level it maps at.
   */
  predicate DescentFailure(rc: int, level: nat, mapLevel: nat)
  {
    rc == CallbackFailure(mapLevel)
    || (mapLevel <= 4 <= level && rc == TableFailure(4)) || (mapLevel <= 3 <= level && rc == TableFailure(3))
    || (mapLevel <= 2 <= level && rc == TableFailure(2)) || (mapLevel <= 1 <= level && rc == TableFailure(1))
  }

  /**
   * One descent of pager_traverse's loop from the table at `level`: the
   * entry for info->virtual is found (or created), then either the callback
   * runs on it, a failure turning into CallbackFailure(level), or the
   * descent goes on into the table it points to.  A failing get_page_table
   * gives TableFailure(level).
   */
  function DescendEffect(s: Tables, features: bv32, info: Info, cb: Callback, table: bv64, level: nat,
                         canGib: bool, can2Mib: bool): (r: Outcome)
    requires 1 <= level <= 4 && info.Indices() && (cb == ClonePages ==> info.srcTable != None)
    ensures r.info.Indices() && SameWalk(info, r.info, cb)
    decreases level
  {
    var t := TableEffect(s, features, table, level, info.virtual, info.attributes);
    if t.index == -1 then Outcome(TableFailure(level), t.s, info)
    else
      var next := WithIndex(info, level, t.index);
      if MapsAt(level, canGib, can2Mib) then
        var v := CallbackEffect(cb, t.s, features, next, table, t.index, level);
        Outcome(if v.rc != 0 then CallbackFailure(level) else 0, v.s, v.info)
      else
        DescendEffect(t.s, features, next, cb, FrameOf(Load(t.s.mem, table, t.index)), level - 1, canGib, can2Mib)
  }

  /**
   * One pass of pager_traverse's loop: choose the step, record the choice
   * in RESV0/RESV1, descend from the destination PML4 and, when that
   * succeeds, advance by the step.
   */
  function StepEffect(s: Tables, features: bv32, info: Info, cb: Callback): (r: Outcome)
    requires info.size > 0 && info.size % PageSize == 0 && info.Indices() && info.destTable != None
    requires cb == ClonePages ==> info.srcTable != None
    ensures r.info.Indices() && r.info.srcTable == info.srcTable && r.info.destTable == info.destTable
  {
    var canGib := CanGib(info.size, info.attributes, features);
    var can2Mib := Can2Mib(info.size, info.attributes);
    GranuleFits(info.size, info.attributes, features);
    var d := DescendEffect(s, features, info.(attributes := WithStepBits(info.attributes, canGib, can2Mib)), cb,
                           info.destTable.value, 4, canGib, can2Mib);
    assert d.info.size == info.size;
    if d.rc != 0 then d
    else Outcome(0, d.s, Advance(d.info, Granule(info.size, info.attributes, features)))
  }

  /**
   * What a pass leaves: the attributes with RESV0/RESV1 recording the step;
   * the address and size moved on by the step when it succeeds and as they
   * were when it fails; the pool only losing pages from its front, frames
   * freed only by fly-unmap and flushes only on the loaded tables.
   */
  lemma StepFacts(s: Tables, features: bv32, info: Info, cb: Callback)
    requires info.size > 0 && info.size % PageSize == 0 && info.Indices() && info.destTable != None
    requires cb == ClonePages ==> info.srcTable != None
    ensures var r := StepEffect(s, features, info, cb);
            var step := Granule(info.size, info.attributes, features);
            r.info.attributes
              == WithStepBits(info.attributes, CanGib(info.size, info.attributes, features), Can2Mib(info.size, info.attributes))
            && (r.rc == 0 || -8 <= r.rc <= -2)
            && (r.rc == 0 ==> r.info.size == info.size - step && r.info.virtual == Add(info.virtual, StepValue(step)))
            && (r.rc == 0 && cb != UnmapPages ==> r.info.physical == Add(info.physical, StepValue(step)))
            && (r.rc != 0 ==> r.info.size == info.size && r.info.virtual == info.virtual)
            && (r.rc != 0 && cb != UnmapPages ==> r.info.physical == info.physical)
            && r.info.curTable == info.curTable
            && IsSuffix(r.s.pool, s.pool) && (cb != FlyUnmapPages ==> r.s.freed == s.freed)
            && (info.destTable != Some(info.curTable) ==> r.s.flushed == s.flushed)
  {
    var canGib := CanGib(info.size, info.attributes, features);
    var can2Mib := Can2Mib(info.size, info.attributes);
    var stepped := info.(attributes := WithStepBits(info.attributes, canGib, can2Mib));
    DescendFrame(s, features, stepped, cb, info.destTable.value, 4, canGib, can2Mib);
    GranuleFits(info.size, info.attributes, features);
  }

  /** A pass that succeeds uses up its step of the size; one that fails leaves the size as it was. */
  lemma StepAdvances(s: Tables, features: bv32, info: Info, cb: Callback)
    requires info.size > 0 && info.size % PageSize == 0 && info.Indices() && info.destTable != None
    requires cb == ClonePages ==> info.srcTable != None
    ensures var r := StepEffect(s, features, info, cb);
            r.info.size == if r.rc == 0 then info.size - Granule(info.size, info.attributes, features) else info.size
    ensures StepEffect(s, features, info, cb).info.size % PageSize == 0
  {
    GranuleFits(info.size, info.attributes, features);
  }

  /**
   * pager_traverse from the state `s`: passes until the size is used up or
   * one fails.  A failing pass ends the traversal with its code, and what
   * the passes before it wrote is not undone.
   */
  function TraverseEffect(s: Tables, features: bv32, info: Info, cb: Callback): (r: Outcome)
    requires info.size % PageSize == 0 && info.Indices() && info.destTable != None
    requires cb == ClonePages ==> info.srcTable != None
    ensures r.rc == 0 <==> r.info.size == 0
    ensures r.info.Indices() && r.info.destTable == info.destTable
    decreases info.size
  {
    if info.size == 0 then Outcome(0, s, info)
    else
      var p := StepEffect(s, features, info, cb);
      StepAdvances(s, features, info, cb);
      GranuleFits(info.size, info.attributes, features);
      if p.rc != 0 then p else TraverseEffect(p.s, features, p.info, cb)
  }

  /** A pool that lost at most its first page is a suffix of what it was. */
  lemma PoolShrinks(r: seq<bv64>, s: seq<bv64>)
    requires r == s || (s != [] && r == s[1..])
    ensures IsSuffix(r, s)
  {
  }

  /** A descent whose get_page_table fails at `level` fails with a code DescentFailure allows. */
  lemma DescentFailureHere(level: nat, mapLevel: nat)
    requires 1 <= level <= 4 && mapLevel <= level
    ensures DescentFailure(TableFailure(level), level, mapLevel)
  {
  }

  /** A descent that runs the callback at `level` maps at `level`, and a failing callback is a DescentFailure. */
  lemma DescentFailureMaps(level: nat, canGib: bool, can2Mib: bool)
    requires 1 <= level <= 4 && MapsAt(level, canGib, can2Mib) && MapLevel(canGib, can2Mib) <= level
    ensures DescentFailure(CallbackFailure(level), level, MapLevel(canGib, can2Mib))
  {
  }

  /**
   * A descent from `level`, one level at a time: a failing get_page_table,
   * the callback's code, or the descent from `child` at `level - 1` with the
   * tables `s1` and the info `next`.
   */
  lemma DescendStepCode(s: Tables, features: bv32, info: Info, cb: Callback, table: bv64, level: nat,
                        canGib: bool, can2Mib: bool)
    returns (found: bool, s1: Tables, next: Info, child: bv64)
    requires 1 <= level <= 4 && info.Indices() && (cb == ClonePages ==> info.srcTable != None)
    ensures var r := DescendEffect(s, features, info, cb, table, level, canGib, can2Mib);
            if !found then r.rc == TableFailure(level)
            else if MapsAt(level, canGib, can2Mib) then r.rc == 0 || r.rc == CallbackFailure(level)
            else level >= 2 && next.Indices() && (cb == ClonePages ==> next.srcTable != None)
                 && r == DescendEffect(s1, features, next, cb, child, level - 1, canGib, can2Mib)
  {
    var t := TableEffect(s, features, table, level, info.virtual, info.attributes);
    found := t.index != -1;
    s1 := t.s;
    if found {
      next := WithIndex(info, level, t.index);
      child := FrameOf(Load(t.s.mem, table, t.index));
    } else {
      next := info;
      child := table;
    }
  }

  /** A descent whose entry at `level` is found in `index` and that maps there: the callback's outcome. */
  lemma DescendVisits(s0: Tables, s1: Tables, features: bv32, info: Info, cb: Callback, table: bv64, index: nat,
                      level: nat, canGib: bool, can2Mib: bool)
    requires 1 <= level <= 4 && info.Indices() && (cb == ClonePages ==> info.srcTable != None)
    requires TableEffect(s0, features, table, level, info.virtual, info.attributes) == Indexed(index, s1)
    requires MapsAt(level, canGib, can2Mib)
    ensures var r := DescendEffect(s0, features, info, cb, table, level, canGib, can2Mib);
            var v := CallbackEffect(cb, s1, features, WithIndex(info, level, index), table, index, level);
            r.rc == (if v.rc != 0 then CallbackFailure(level) else 0) && r.s == v.s && r.info == v.info
  {
  }

  /** A descent whose entry at `level` is found in `index` and that goes on: the descent from the next table. */
  lemma DescendDeeper(s0: Tables, s1: Tables, features: bv32, info: Info, cb: Callback, table: bv64, index: nat,
                      level: nat, canGib: bool, can2Mib: bool)
    requires 1 <= level <= 4 && info.Indices() && (cb == ClonePages ==> info.srcTable != None)
    requires TableEffect(s0, features, table, level, info.virtual, info.attributes) == Indexed(index, s1)
    requires !MapsAt(level, canGib, can2Mib)
    ensures DescendEffect(s0, features, info, cb, table, level, canGib, can2Mib)
            == DescendEffect(s1, features, WithIndex(info, level, index), cb, FrameOf(Load(s1.mem, table, index)),
                             level - 1, canGib, can2Mib)
  {
  }

  /** A descent whose entry at `level` is found in `index`: the callback's outcome, or the descent from the next table. */
  lemma DescendFound(s0: Tables, s1: Tables, features: bv32, info: Info, cb: Callback, table: bv64, index: nat,
                     level: nat, canGib: bool, can2Mib: bool)
    requires 1 <= level <= 4 && info.Indices() && (cb == ClonePages ==> info.srcTable != None)
    requires TableEffect(s0, features, table, level, info.virtual, info.attributes) == Indexed(index, s1)
    ensures MapsAt(level, canGib, can2Mib) ==>
              var r := DescendEffect(s0, features, info, cb, table, level, canGib, can2Mib);
              var v := CallbackEffect(cb, s1, features, WithIndex(info, level, index), table, index, level);
              r.rc == (if v.rc != 0 then CallbackFailure(level) else 0) && r.s == v.s && r.info == v.info
    ensures !MapsAt(level, canGib, can2Mib) ==>
              DescendEffect(s0, features, info, cb, table, level, canGib, can2Mib)
              == DescendEffect(s1, features, WithIndex(info, level, index), cb, FrameOf(Load(s1.mem, table, index)),
                               level - 1, canGib, can2Mib)
  {
    if MapsAt(level, canGib, can2Mib) {
      DescendVisits(s0, s1, features, info, cb, table, index, level, canGib, can2Mib);
    } else {
      DescendDeeper(s0, s1, features, info, cb, table, index, level, canGib, can2Mib);
    }
  }

  /** A code a descent from `level - 1` may fail with, a descent from `level` may fail with too. */
  lemma DescentFailureUp(rc: int, level: nat, mapLevel: nat)
    requires level >= 1
    requires rc == 0 || DescentFailure(rc, level - 1, mapLevel)
    ensures rc == 0 || DescentFailure(rc, level, mapLevel)
  {
  }

  /** A descent ends with 0 or one of pager_traverse's failure codes. */
  lemma {:induction false} DescendRange(s: Tables, features: bv32, info: Info, cb: Callback, table: bv64, level: nat,
                                   canGib: bool, can2Mib: bool)
    requires 1 <= level <= 4 && info.Indices() && (cb == ClonePages ==> info.srcTable != None)
    ensures var r := DescendEffect(s, features, info, cb, table, level, canGib, can2Mib);
            r.rc == 0 || -8 <= r.rc <= -2
    decreases level
  {
    var t := TableEffect(s, features, table, level, info.virtual, info.attributes);
    if t.index != -1 {
      var next := WithIndex(info, level, t.index);
      if MapsAt(level, canGib, can2Mib) {
      } else {
        DescendRange(t.s, features, next, cb, FrameOf(Load(t.s.mem, table, t.index)), level - 1, canGib, can2Mib);
      }
    }
  }

  /** A descent only takes pages from the front of the pool. */
  lemma {:induction false} DescendPool(s: Tables, features: bv32, info: Info, cb: Callback, table: bv64, level: nat,
                                   canGib: bool, can2Mib: bool)
    requires 1 <= level <= 4 && info.Indices() && (cb == ClonePages ==> info.srcTable != None)
    ensures var r := DescendEffect(s, features, info, cb, table, level, canGib, can2Mib);
            IsSuffix(r.s.pool, s.pool)
    decreases level
  {
    var t := TableEffect(s, features, table, level, info.virtual, info.attributes);
    if t.index != -1 {
      var next := WithIndex(info, level, t.index);
      PoolShrinks(t.s.pool, s.pool);
      if MapsAt(level, canGib, can2Mib) {
        var v := CallbackEffect(cb, t.s, features, next, table, t.index, level);
        CallbackPool(cb, t.s, features, next, table, t.index, level);
        PoolShrinks(v.s.pool, t.s.pool);
        IsSuffixTrans(v.s.pool, t.s.pool, s.pool);
      } else {
        DescendPool(t.s, features, next, cb, FrameOf(Load(t.s.mem, table, t.index)), level - 1, canGib, can2Mib);
        IsSuffixTrans(DescendEffect(t.s, features, next, cb, FrameOf(Load(t.s.mem, table, t.index)), level - 1,
                                    canGib, can2Mib).s.pool, t.s.pool, s.pool);
      }
    }
  }

  /** Only a fly-unmap descent frees frames. */
  lemma {:induction false} DescendFreed(s: Tables, features: bv32, info: Info, cb: Callback, table: bv64, level: nat,
                                   canGib: bool, can2Mib: bool)
    requires 1 <= level <= 4 && info.Indices() && (cb == ClonePages ==> info.srcTable != None)
    ensures var r := DescendEffect(s, features, info, cb, table, level, canGib, can2Mib);
            cb != FlyUnmapPages ==> r.s.freed == s.freed
    decreases level
  {
    var t := TableEffect(s, features, table, level, info.virtual, info.attributes);
    if t.index != -1 {
      var next := WithIndex(info, level, t.index);
      if MapsAt(level, canGib, can2Mib) {
        CallbackFreed(cb, t.s, features, next, table, t.index, level);
      } else {
        DescendFreed(t.s, features, next, cb, FrameOf(Load(t.s.mem, table, t.index)), level - 1, canGib, can2Mib);
      }
    }
  }

  /** Only a descent through the loaded tables flushes. */
  lemma {:induction false} DescendFlushed(s: Tables, features: bv32, info: Info, cb: Callback, table: bv64, level: nat,
                                   canGib: bool, can2Mib: bool)
    requires 1 <= level <= 4 && info.Indices() && (cb == ClonePages ==> info.srcTable != None)
    ensures var r := DescendEffect(s, features, info, cb, table, level, canGib, can2Mib);
            info.destTable != Some(info.curTable) ==> r.s.flushed == s.flushed
    decreases level
  {
    var t := TableEffect(s, features, table, level, info.virtual, info.attributes);
    if t.index != -1 {
      var next := WithIndex(info, level, t.index);
      if MapsAt(level, canGib, can2Mib) {
        CallbackFlushed(cb, t.s, features, next, table, t.index, level);
      } else {
        DescendFlushed(t.s, features, next, cb, FrameOf(Load(t.s.mem, table, t.index)), level - 1, canGib, can2Mib);
      }
    }
  }

  /**
   * What a descent changes besides the entries: the pool only loses pages
   * from its front, only fly-unmap frees frames, and only a walk of the
   * loaded tables flushes; its code is 0 or one of pager_traverse's.
   */
  lemma DescendFrame(s: Tables, features: bv32, info: Info, cb: Callback, table: bv64, level: nat,
                     canGib: bool, can2Mib: bool)
    requires 1 <= level <= 4 && info.Indices() && (cb == ClonePages ==> info.srcTable != None)
    ensures var r := DescendEffect(s, features, info, cb, table, level, canGib, can2Mib);
            (r.rc == 0 || -8 <= r.rc <= -2) && IsSuffix(r.s.pool, s.pool)
            && (cb != FlyUnmapPages ==> r.s.freed == s.freed)
            && (info.destTable != Some(info.curTable) ==> r.s.flushed == s.flushed)
  {
    DescendRange(s, features, info, cb, table, level, canGib, can2Mib);
    DescendPool(s, features, info, cb, table, level, canGib, can2Mib);
    DescendFreed(s, features, info, cb, table, level, canGib, can2Mib);
    DescendFlushed(s, features, info, cb, table, level, canGib, can2Mib);
  }

  /**
   * A traversal is its first pass `p`, then, when that succeeds, the
   * traversal of what is left.
   */
  lemma TraverseFirst(s: Tables, features: bv32, info: Info, cb: Callback, p: Outcome)
    requires info.size > 0 && info.size % PageSize == 0 && info.Indices() && info.destTable != None
    requires cb == ClonePages ==> info.srcTable != None
    requires p == StepEffect(s, features, info, cb)
    ensures p.rc != 0 ==> TraverseEffect(s, features, info, cb) == p
    ensures p.rc == 0 ==> p.info.size % PageSize == 0 && p.info.Indices() && p.info.destTable == info.destTable
                          && TraverseEffect(s, features, info, cb) == TraverseEffect(p.s, features, p.info, cb)
    ensures TraverseSteps(s, features, info, cb)
            == if p.rc != 0 then [] else [Granule(info.size, info.attributes, features)] + TraverseSteps(p.s, features, p.info, cb)
  {
    StepAdvances(s, features, info, cb);
    GranuleFits(info.size, info.attributes, features);
  }

  /** A pass from `info` is Progress from `info`: its step taken when it succeeds, no step when it fails. */
  lemma PassProgress(s: Tables, features: bv32, info: Info, cb: Callback)
    requires info.size > 0 && info.size % PageSize == 0 && info.Indices() && info.destTable != None
    requires cb == ClonePages ==> info.srcTable != None
    ensures var p := StepEffect(s, features, info, cb);
            Progress(info, p.info, if p.rc == 0 then [Granule(info.size, info.attributes, features)] else [], features, cb)
  {
    StepFacts(s, features, info, cb);
    ProgressStart(info, features, cb);
    GranuleFits(info.size, info.attributes, features);
    var p := StepEffect(s, features, info, cb);
    if p.rc != 0 {
      ProgressStay(info, info, p.info, [], features, cb);
    } else {
      var step := Granule(info.size, info.attributes, features);
      ProgressStep(info, info, p.info, [], step, features, cb);
      assert [] + [step] == [step];
    }
  }

  /** The steps of the passes a traversal completes: its whole schedule, or those before the pass that fails. */
  ghost function TraverseSteps(s: Tables, features: bv32, info: Info, cb: Callback): seq<nat>
    requires info.size % PageSize == 0 && info.Indices() && info.destTable != None
    requires cb == ClonePages ==> info.srcTable != None
    decreases info.size
  {
    if info.size == 0 then []
    else
      var p := StepEffect(s, features, info, cb);
      StepAdvances(s, features, info, cb);
      GranuleFits(info.size, info.attributes, features);
      if p.rc != 0 then [] else [Granule(info.size, info.attributes, features)] + TraverseSteps(p.s, features, p.info, cb)
  }

  lemma {:induction false} WalkAppend(start: bv64, s1: seq<nat>, s2: seq<nat>)
    ensures Walk(start, s1 + s2) == Walk(Walk(start, s1), s2)
    decreases |s2|
  {
    if s2 == [] {
      assert s1 + s2 == s1;
    } else {
      var init, last := s2[..|s2| - 1], s2[|s2| - 1];
      assert s2 == init + [last];
      assert s1 + s2 == (s1 + init) + [last];
      WalkSnoc(start, s1 + init, last);
      WalkSnoc(Walk(start, s1), init, last);
      WalkAppend(start, s1, init);
    }
  }

  /** Walked composes: `s1` takes `a` to `b` and `s2` takes `b` to `c`, so `s1 + s2` takes `a` to `c`. */
  lemma WalkedTrans(a: Info, b: Info, c: Info, s1: seq<nat>, s2: seq<nat>, features: bv32)
    requires Walked(a, b, s1, features) && Walked(b, c, s2, features)
    ensures Walked(a, c, s1 + s2, features)
  {
    ScheduleByForce4K(c.size, a.attributes, b.attributes, features);
    ScheduleByForce4K(b.size, a.attributes, b.attributes, features);
    WalkAppend(a.virtual, s1, s2);
    assert (s1 + s2) + Schedule(c.size, a.attributes, features) == s1 + (s2 + Schedule(c.size, b.attributes, features));
  }

  /** Progress composes: `s1` takes `a` to `b` and `s2` takes `b` to `c`, so `s1 + s2` takes `a` to `c`. */
  lemma ProgressTrans(a: Info, b: Info, c: Info, s1: seq<nat>, s2: seq<nat>, features: bv32, cb: Callback)
    requires Progress(a, b, s1, features, cb) && Progress(b, c, s2, features, cb)
    ensures Progress(a, c, s1 + s2, features, cb)
  {
    WalkedTrans(a, b, c, s1, s2, features);
    WalkAppend(a.physical, s1, s2);
  }

  /** A traversal keeps Progress: it ends at the position its completed steps reach, within its schedule. */
  lemma {:induction false} TraverseProgress(s: Tables, features: bv32, info: Info, cb: Callback)
    requires info.size % PageSize == 0 && info.Indices() && info.destTable != None
    requires cb == ClonePages ==> info.srcTable != None
    ensures Progress(info, TraverseEffect(s, features, info, cb).info, TraverseSteps(s, features, info, cb), features, cb)
    decreases info.size
  {
    ProgressStart(info, features, cb);
    if info.size > 0 {
      var p := PassSummary(s, features, info, cb);
      PassProgress(s, features, info, cb);
      if p.rc == 0 {
        TraverseProgress(p.s, features, p.info, cb);
        ProgressTrans(info, p.info, TraverseEffect(p.s, features, p.info, cb).info,
                      [Granule(info.size, info.attributes, features)], TraverseSteps(p.s, features, p.info, cb), features, cb);
      }
    }
  }

  /**
   * What a traversal changes besides the entries: the pool only loses pages
   * from its front, only fly-unmap frees frames, and only a walk of the
   * loaded tables flushes.
   */
  lemma {:induction false} TraverseFrame(s: Tables, features: bv32, info: Info, cb: Callback)
    requires info.size % PageSize == 0 && info.Indices() && info.destTable != None
    requires cb == ClonePages ==> info.srcTable != None
    ensures var r := TraverseEffect(s, features, info, cb);
            IsSuffix(r.s.pool, s.pool) && (cb != FlyUnmapPages ==> r.s.freed == s.freed)
            && (info.destTable != Some(info.curTable) ==> r.s.flushed == s.flushed)
    decreases info.size
  {
    if info.size > 0 {
      var p := StepEffect(s, features, info, cb);
      StepFacts(s, features, info, cb);
      TraverseFirst(s, features, info, cb, p);
      if p.rc == 0 {
        TraverseFrame(p.s, features, p.info, cb);
        IsSuffixTrans(TraverseEffect(p.s, features, p.info, cb).s.pool, p.s.pool, s.pool);
      }
    }
  }

  /** The code a descent fails with names the level: TableFailure of a level it passed through, or CallbackFailure of the level it maps at. */
  lemma {:induction false} DescendFails(s: Tables, features: bv32, info: Info, cb: Callback, table: bv64, level: nat,
                                   canGib: bool, can2Mib: bool)
    requires 1 <= level <= 4 && info.Indices() && (cb == ClonePages ==> info.srcTable != None)
    requires MapLevel(canGib, can2Mib) <= level
    ensures var r := DescendEffect(s, features, info, cb, table, level, canGib, can2Mib);
            r.rc == 0 || DescentFailure(r.rc, level, MapLevel(canGib, can2Mib))
    decreases level
  {
    var found, s1, next, child := DescendStepCode(s, features, info, cb, table, level, canGib, can2Mib);
    if !found {
      DescentFailureHere(level, MapLevel(canGib, can2Mib));
    } else if MapsAt(level, canGib, can2Mib) {
      DescentFailureMaps(level, canGib, can2Mib);
    } else {
      DescendFails(s1, features, next, cb, child, level - 1, canGib, can2Mib);
      DescentFailureUp(DescendEffect(s1, features, next, cb, child, level - 1, canGib, can2Mib).rc, level,
                       MapLevel(canGib, can2Mib));
    }
  }

  /** Unless it clones, a descent fails only once the pool is empty. */
  lemma {:induction false} DescendDrains(s: Tables, features: bv32, info: Info, cb: Callback, table: bv64, level: nat,
                                   canGib: bool, can2Mib: bool)
    requires 1 <= level <= 4 && info.Indices() && (cb == ClonePages ==> info.srcTable != None)
    ensures var r := DescendEffect(s, features, info, cb, table, level, canGib, can2Mib);
            r.rc != 0 && cb != ClonePages ==> r.s.pool == []
    decreases level
  {
    var t := TableEffect(s, features, table, level, info.virtual, info.attributes);
    if t.index != -1 {
      var next := WithIndex(info, level, t.index);
      if MapsAt(level, canGib, can2Mib) {
      } else {
        DescendDrains(t.s, features, next, cb, FrameOf(Load(t.s.mem, table, t.index)), level - 1, canGib, can2Mib);
      }
    }
  }

  /**
   * The code a descent fails with names the level: TableFailure of a level
   * it passed through, or CallbackFailure of the level it maps at.  Unless
   * it clones, it fails only once the pool is empty.
   */
  lemma DescendCodes(s: Tables, features: bv32, info: Info, cb: Callback, table: bv64, level: nat,
                     canGib: bool, can2Mib: bool)
    requires 1 <= level <= 4 && info.Indices() && (cb == ClonePages ==> info.srcTable != None)
    requires MapLevel(canGib, can2Mib) <= level
    ensures var r := DescendEffect(s, features, info, cb, table, level, canGib, can2Mib);
            (r.rc == 0 || DescentFailure(r.rc, level, MapLevel(canGib, can2Mib)))
            && (r.rc != 0 && cb != ClonePages ==> r.s.pool == [])
  {
    DescendFails(s, features, info, cb, table, level, canGib, can2Mib);
    DescendDrains(s, features, info, cb, table, level, canGib, can2Mib);
  }

  /** A pass changes the attributes only in RESV0/RESV1, so ARC_PAGER_4K stays as it was. */
  lemma StepKeepsForce4K(s: Tables, features: bv32, info: Info, cb: Callback)
    requires info.size > 0 && info.size % PageSize == 0 && info.Indices() && info.destTable != None
    requires cb == ClonePages ==> info.srcTable != None
    ensures Force4K(StepEffect(s, features, info, cb).info.attributes) == Force4K(info.attributes)
  {
    WithStepBitsKeepsOthers(info.attributes, CanGib(info.size, info.attributes, features),
                            Can2Mib(info.size, info.attributes));
  }

  /** A failing pass fails at the level of its step: see DescentFailure. */
  lemma StepCodes(s: Tables, features: bv32, info: Info, cb: Callback)
    requires info.size > 0 && info.size % PageSize == 0 && info.Indices() && info.destTable != None
    requires cb == ClonePages ==> info.srcTable != None
    ensures var r := StepEffect(s, features, info, cb);
            (r.rc != 0 ==> DescentFailure(r.rc, 4, PassLevel(info.size, info.attributes, features)))
            && (r.rc != 0 && cb != ClonePages ==> r.s.pool == [])
  {
    var canGib := CanGib(info.size, info.attributes, features);
    var can2Mib := Can2Mib(info.size, info.attributes);
    var stepped := info.(attributes := WithStepBits(info.attributes, canGib, can2Mib));
    DescendCodes(s, features, stepped, cb, info.destTable.value, 4, canGib, can2Mib);
    var d := DescendEffect(s, features, stepped, cb, info.destTable.value, 4, canGib, can2Mib);
    assert d.rc != 0 ==> StepEffect(s, features, info, cb) == d;
  }

  /**
   * A traversal that fails names the level its last pass failed at, for the
   * size that pass had left; unless it clones, it fails only once the pool
   * is empty.
   */
  lemma {:induction false} TraverseCodes(s: Tables, features: bv32, info: Info, cb: Callback)
    requires info.size % PageSize == 0 && info.Indices() && info.destTable != None
    requires cb == ClonePages ==> info.srcTable != None
    ensures var r := TraverseEffect(s, features, info, cb);
            (r.rc != 0 ==> DescentFailure(r.rc, 4, PassLevel(r.info.size, r.info.attributes, features)))
            && (r.rc != 0 && cb != ClonePages ==> r.s.pool == [])
    decreases info.size
  {
    if info.size > 0 {
      var p := StepEffect(s, features, info, cb);
      if p.rc != 0 {
        StepCodes(s, features, info, cb);
        StepAdvances(s, features, info, cb);
        StepKeepsForce4K(s, features, info, cb);
        assert TraverseEffect(s, features, info, cb) == p;
      } else {
        StepAdvances(s, features, info, cb);
        GranuleFits(info.size, info.attributes, features);
        TraverseCodes(p.s, features, p.info, cb);
        assert TraverseEffect(s, features, info, cb) == TraverseEffect(p.s, features, p.info, cb);
      }
    }
  }

  /**
   * With a page for every level in the pool, a descent that does not clone
   * succeeds and uses at most that many pages.
   */
  lemma {:induction false} DescendSucceeds(s: Tables, features: bv32, info: Info, cb: Callback, table: bv64, level: nat,
                                           canGib: bool, can2Mib: bool)
    requires 1 <= level <= 4 && info.Indices() && cb != ClonePages && |s.pool| >= level
    ensures var r := DescendEffect(s, features, info, cb, table, level, canGib, can2Mib);
            r.rc == 0 && |r.s.pool| + level >= |s.pool|
    decreases level
  {
    var t := TableEffect(s, features, table, level, info.virtual, info.attributes);
    if !MapsAt(level, canGib, can2Mib) {
      var next := WithIndex(info, level, t.index);
      DescendSucceeds(t.s, features, next, cb, FrameOf(Load(t.s.mem, table, t.index)), level - 1, canGib, can2Mib);
    }
  }

  /** A pass that is not a clone succeeds when the pool holds a page for each table it may create. */
  lemma StepSucceeds(s: Tables, features: bv32, info: Info, cb: Callback)
    requires info.size > 0 && info.size % PageSize == 0 && info.Indices() && info.destTable != None && cb != ClonePages
    requires |s.pool| >= 4
    ensures var p := StepEffect(s, features, info, cb); p.rc == 0 && |p.s.pool| + 4 >= |s.pool|
  {
    var canGib := CanGib(info.size, info.attributes, features);
    var can2Mib := Can2Mib(info.size, info.attributes);
    DescendSucceeds(s, features, info.(attributes := WithStepBits(info.attributes, canGib, can2Mib)), cb,
                    info.destTable.value, 4, canGib, can2Mib);
  }

  /** The schedule of a non-empty range starts with its first step. */
  lemma ScheduleFirst(size: nat, a: bv32, features: bv32)
    requires size % PageSize == 0 && size > 0
    ensures Granule(size, a, features) <= size && (size - Granule(size, a, features)) % PageSize == 0
    ensures Schedule(size, a, features) == [Granule(size, a, features)] + Schedule(size - Granule(size, a, features), a, features)
  {
    GranuleFits(size, a, features);
  }

  /**
   * Everything the lemmas about whole traversals need from the first pass
   * `p`: a failing pass ends the traversal, a succeeding one leaves the
   * traversal of the rest; the size shrinks by the step exactly when it
   * succeeds; ARC_PAGER_4K is kept; and unless it clones, a pass with four
   * pages in the pool succeeds and takes at most those four.
   */
  lemma PassSummary(s: Tables, features: bv32, info: Info, cb: Callback) returns (p: Outcome)
    requires info.size > 0 && info.size % PageSize == 0 && info.Indices() && info.destTable != None
    requires cb == ClonePages ==> info.srcTable != None
    ensures p == StepEffect(s, features, info, cb)
    ensures p.info.size % PageSize == 0 && p.info.Indices() && p.info.destTable == info.destTable
    ensures p.info.srcTable == info.srcTable
    ensures p.info.size == if p.rc == 0 then info.size - Granule(info.size, info.attributes, features) else info.size
    ensures Force4K(p.info.attributes) == Force4K(info.attributes)
    ensures p.rc != 0 ==> TraverseEffect(s, features, info, cb) == p
    ensures p.rc == 0 ==> TraverseEffect(s, features, info, cb) == TraverseEffect(p.s, features, p.info, cb)
    ensures TraverseSteps(s, features, info, cb)
            == if p.rc != 0 then [] else [Granule(info.size, info.attributes, features)] + TraverseSteps(p.s, features, p.info, cb)
    ensures cb != ClonePages && |s.pool| >= 4 ==> p.rc == 0 && |p.s.pool| + 4 >= |s.pool|
  {
    p := StepEffect(s, features, info, cb);
    StepAdvances(s, features, info, cb);
    StepKeepsForce4K(s, features, info, cb);
    TraverseFirst(s, features, info, cb, p);
    if cb != ClonePages && |s.pool| >= 4 {
      StepSucceeds(s, features, info, cb);
    }
  }

  /**
   * Four pages for each step of a schedule, less the four a first step
   * took, are four pages for each step of the rest of it.
   */
  lemma PoolCoversRest(size: nat, a: bv32, b: bv32, features: bv32, before: nat, after: nat)
    requires size % PageSize == 0 && size > 0 && Force4K(a) == Force4K(b)
    requires before >= 4 * |Schedule(size, a, features)| && after + 4 >= before
    ensures 0 < Granule(size, a, features) <= size
    ensures after >= 4 * |Schedule(size - Granule(size, a, features), b, features)|
  {
    ScheduleFirst(size, a, features);
    ScheduleByForce4K(size - Granule(size, a, features), a, b, features);
  }

  /**
   * A traversal that does not clone succeeds when the pool holds four pages
   * for every step of its schedule.
   */
  lemma {:induction false} TraverseSucceeds(s: Tables, features: bv32, info: Info, cb: Callback)
    requires info.size % PageSize == 0 && info.Indices() && info.destTable != None && cb != ClonePages
    requires |s.pool| >= 4 * |Schedule(info.size, info.attributes, features)|
    ensures TraverseEffect(s, features, info, cb).rc == 0
    decreases info.size
  {
    if info.size > 0 {
      var p := PassSummary(s, features, info, cb);
      PoolCoversRest(info.size, info.attributes, p.info.attributes, features, |s.pool|, |p.s.pool|);
      TraverseSucceeds(p.s, features, p.info, cb);
    }
  }

  class PageManager {
    /** Physical memory holding the page tables. */
    var mem: Memory
    /** CR3: the physical address of the loaded PML4. */
    var cr3: bv64
    /** Arc_KernelPageTables. */
    var kernelPageTables: bv64
    /** Arc_KernelMeta->paging_features. */
    var features: bv32
    /** The pages pmm_fast_page_alloc hands out next, in order; empty means it returns NULL. */
    var pool: seq<bv64>
    /** The frames given to pmm_fast_page_free, in order. */
    var freed: seq<bv64>
    /** The addresses given to invlpg, in order. */
    var flushed: seq<bv64>

    constructor (cr3: bv64, features: bv32, pool: seq<bv64>)
      ensures mem == map[] && this.cr3 == cr3 && kernelPageTables == 0
      ensures this.features == features && this.pool == pool && freed == [] && flushed == []
    {
      mem := map[];
      this.cr3 := cr3;
      kernelPageTables := 0;
      this.features := features;
      this.pool := pool;
      freed := [];
      flushed := [];
    }

    /** The part of the state a traversal changes. */
    function State(): Tables
      reads this
    {
      Tables(mem, pool, freed, flushed)
    }

    /** pmm_fast_page_alloc: the next page of the pool, or None (NULL) when it is empty. */
    method AllocPage() returns (page: Option<bv64>)
      modifies this
      ensures old(pool) == [] ==> page == None && pool == old(pool)
      ensures old(pool) != [] ==> page == Some(old(pool)[0]) && pool == old(pool)[1..]
      ensures mem == old(mem) && cr3 == old(cr3) && kernelPageTables == old(kernelPageTables)
      ensures features == old(features) && freed == old(freed) && flushed == old(flushed)
    {
      if pool == [] {
        page := None;
      } else {
        page := Some(pool[0]);
        pool := pool[1..];
      }
    }

    /** The invlpg each callback issues when the destination tables are the loaded ones. */
    method Invalidate(info: Info)
      modifies this
      ensures flushed == old(flushed) + (if info.destTable == Some(info.curTable) then [info.virtual] else [])
      ensures mem == old(mem) && pool == old(pool) && cr3 == old(cr3) && kernelPageTables == old(kernelPageTables)
      ensures features == old(features) && freed == old(freed)
    {
      if info.destTable == Some(info.curTable) {
        flushed := flushed + [info.virtual];
      }
    }

    /**
     * get_page_table: the index of `virtual` in `parent` at `level`, after
     * creating a zeroed table under that entry when CreatesTable says so.
     * -1 for a NULL parent or when the allocation fails.
     */
    method GetPageTable(parent: Option<bv64>, level: nat, virtual: bv64, attributes: bv32) returns (index: int)
      requires 1 <= level <= 4
      modifies this
      ensures cr3 == old(cr3) && kernelPageTables == old(kernelPageTables) && features == old(features)
      ensures freed == old(freed) && flushed == old(flushed)
      ensures parent == None ==> index == -1 && mem == old(mem) && pool == old(pool)
      ensures IsSuffix(pool, old(pool))
      ensures parent != None ==>
        var t := TableEffect(old(State()), features, parent.value, level, virtual, attributes);
        index == t.index && State() == t.s
    {
      if parent == None {
        return -1;
      }
      var i := TableIndex(virtual, level);
      var entry := Load(mem, parent.value, i);
      if CreatesTable(level, attributes, entry) {
        var address := AllocPage();
        if address == None {
          return -1;
        }
        mem := ZeroPage(mem, address.value);
        mem := StoreEntry(mem, parent.value, i, MakeEntry(address.value, EntryBits(level, attributes, features)));
      }
      index := i;
    }

    /** pager_map_callback: `table[index] = physical | bits`. */
    method MapCallback(info: Info, table: bv64, index: nat, level: nat) returns (rc: int)
      requires index < EntryCount
      modifies this
      ensures pool == old(pool) && freed == old(freed) && cr3 == old(cr3)
      ensures kernelPageTables == old(kernelPageTables) && features == old(features)
      ensures level == 0 ==> rc == -1 && mem == old(mem) && flushed == old(flushed)
      ensures level != 0 ==>
        rc == 0 && mem == StoreEntry(old(mem), table, index, MakeEntry(info.physical, EntryBits(level, info.attributes, features)))
        && flushed == old(flushed) + (if info.destTable == Some(info.curTable) then [info.virtual] else [])
      ensures var r := CallbackEffect(MapPages, old(State()), features, info, table, index, level);
              rc == r.rc && State() == r.s
    {
      if level == 0 {
        return -1;
      }
      mem := StoreEntry(mem, table, index, MakeEntry(info.physical, EntryBits(level, info.attributes, features)));
      Invalidate(info);
      rc := 0;
    }

    /** pager_unmap_callback: capture the frame while info->physical is 0, then clear the entry. */
    method UnmapCallback(info: Info, table: bv64, index: nat, level: nat) returns (rc: int, info': Info)
      requires index < EntryCount
      modifies this
      ensures pool == old(pool) && freed == old(freed) && cr3 == old(cr3)
      ensures kernelPageTables == old(kernelPageTables) && features == old(features)
      ensures level == 0 ==> rc == -1 && info' == info && mem == old(mem) && flushed == old(flushed)
      ensures level != 0 ==>
        rc == 0 && mem == StoreEntry(old(mem), table, index, 0)
        && info' == info.(physical := if info.physical == 0 then FrameOf(Load(old(mem), table, index))
                                      else info.physical)
        && flushed == old(flushed) + (if info.destTable == Some(info.curTable) then [info.virtual] else [])
      ensures var r := CallbackEffect(UnmapPages, old(State()), features, info, table, index, level);
              rc == r.rc && State() == r.s && info' == r.info
    {
      info' := info;
      if level == 0 {
        return -1, info';
      }
      if info'.physical == 0 {
        info' := info'.(physical := FrameOf(Load(mem, table, index)));
      }
      mem := StoreEntry(mem, table, index, 0);
      Invalidate(info');
      rc := 0;
    }

    /** pager_fly_map_callback: point the entry at a newly allocated page, or -2 when there is none. */
    method FlyMapCallback(info: Info, table: bv64, index: nat, level: nat) returns (rc: int)
      requires index < EntryCount
      modifies this
      ensures freed == old(freed) && cr3 == old(cr3) && kernelPageTables == old(kernelPageTables)
      ensures features == old(features)
      ensures level == 0 || old(pool) == [] ==>
        rc == (if level == 0 then -1 else -2) && mem == old(mem) && pool == old(pool) && flushed == old(flushed)
      ensures level != 0 && old(pool) != [] ==>
        rc == 0 && pool == old(pool)[1..]
        && mem == StoreEntry(old(mem), table, index, MakeEntry(old(pool)[0], EntryBits(level, info.attributes, features)))
        && flushed == old(flushed) + (if info.destTable == Some(info.curTable) then [info.virtual] else [])
      ensures var r := CallbackEffect(FlyMapPages, old(State()), features, info, table, index, level);
              rc == r.rc && State() == r.s
    {
      if level == 0 {
        return -1;
      }
      var page := AllocPage();
      if page == None {
        return -2;
      }
      mem := StoreEntry(mem, table, index, MakeEntry(page.value, EntryBits(level, info.attributes, features)));
      Invalidate(info);
      rc := 0;
    }

    /** pager_fly_unmap_callback: free the entry's frame and clear the entry. */
    method FlyUnmapCallback(info: Info, table: bv64, index: nat, level: nat) returns (rc: int)
      requires index < EntryCount
      modifies this
      ensures pool == old(pool) && cr3 == old(cr3) && kernelPageTables == old(kernelPageTables)
      ensures features == old(features)
      ensures level == 0 ==> rc == -1 && mem == old(mem) && freed == old(freed) && flushed == old(flushed)
      ensures level != 0 ==>
        rc == 0 && mem == StoreEntry(old(mem), table, index, 0)
        && freed == old(freed) + [FrameOf(Load(old(mem), table, index))]
        && flushed == old(flushed) + (if info.destTable == Some(info.curTable) then [info.virtual] else [])
      ensures var r := CallbackEffect(FlyUnmapPages, old(State()), features, info, table, index, level);
              rc == r.rc && State() == r.s
    {
      if level == 0 {
        return -1;
      }
      freed := freed + [FrameOf(Load(mem, table, index))];
      mem := StoreEntry(mem, table, index, 0);
      Invalidate(info);
      rc := 0;
    }

    /** pager_set_attr_callback: keep the entry's address bits and replace the rest. */
    method SetAttrCallback(info: Info, table: bv64, index: nat, level: nat) returns (rc: int)
      requires index < EntryCount
      modifies this
      ensures pool == old(pool) && freed == old(freed) && cr3 == old(cr3)
      ensures kernelPageTables == old(kernelPageTables) && features == old(features)
      ensures level == 0 ==> rc == -1 && mem == old(mem) && flushed == old(flushed)
      ensures level != 0 ==>
        rc == 0
        && mem == StoreEntry(old(mem), table, index,
                             MakeEntry(FrameOf(Load(old(mem), table, index)), EntryBits(level, info.attributes, features)))
        && flushed == old(flushed) + (if info.destTable == Some(info.curTable) then [info.virtual] else [])
      ensures var r := CallbackEffect(SetAttributes, old(State()), features, info, table, index, level);
              rc == r.rc && State() == r.s
    {
      if level == 0 {
        return -1;
      }
      var address := FrameOf(Load(mem, table, index));
      mem := StoreEntry(mem, table, index, MakeEntry(address, EntryBits(level, info.attributes, features)));
      Invalidate(info);
      rc := 0;
    }

    /**
     * pager_clone_callback: copy the source entry that the destination walk's
     * indices select into the destination slot.  An absent source level is
     * skipped with success; a non-zero destination slot gives -2 unless OVW.
     */
    method CloneCallback(info: Info, table: bv64, index: nat, level: nat) returns (rc: int)
      requires index < EntryCount && info.Indices() && info.srcTable != None
      modifies this
      ensures pool == old(pool) && freed == old(freed) && cr3 == old(cr3)
      ensures kernelPageTables == old(kernelPageTables) && features == old(features)
      ensures level == 0 ==> rc == -1 && mem == old(mem) && flushed == old(flushed)
      ensures level != 0 ==>
        match CloneSource(old(mem), info.srcTable.value, info)
        case None => rc == 0 && mem == old(mem) && flushed == old(flushed)
        case Some(e) =>
          if Load(old(mem), table, index) != 0 && !Overwrite(info.attributes) then
            rc == -2 && mem == old(mem) && flushed == old(flushed)
          else
            rc == 0 && mem == StoreEntry(old(mem), table, index, e)
            && flushed == old(flushed) + (if info.destTable == Some(info.curTable) then [info.virtual] else [])
    {
      if level == 0 {
        return -1;
      }
      var pml3 := FrameOf(Load(mem, info.srcTable.value, info.pml4e));
      if pml3 == 0 {
        return 0;
      }
      var e3 := Load(mem, pml3, info.pml3e);
      var pml2 := FrameOf(e3);
      if pml2 == 0 {
        return 0;
      }
      var copied: bv64;
      if LargePage(e3) {
        if Load(mem, table, index) != 0 && !Overwrite(info.attributes) {
          return -2;
        }
        copied := e3;
      } else {
        var e2 := Load(mem, pml2, info.pml2e);
        var pml1 := FrameOf(e2);
        if pml1 == 0 {
          return 0;
        }
        if LargePage(e2) {
          if Load(mem, table, index) != 0 && !Overwrite(info.attributes) {
            return -2;
          }
          copied := e2;
        } else {
          var e1 := Load(mem, pml1, info.pml1e);
          if FrameOf(e1) == 0 {
            return 0;
          }
          if Load(mem, table, index) != 0 && !Overwrite(info.attributes) {
            return -2;
          }
          copied := e1;
        }
      }
      mem := StoreEntry(mem, table, index, copied);
      Invalidate(info);
      rc := 0;
    }

    /** Calls the callback `cb` stands for. */
    method RunCallback(cb: Callback, info: Info, table: bv64, index: nat, level: nat) returns (rc: int, info': Info)
      requires index < EntryCount && info.Indices()
      requires cb == ClonePages ==> info.srcTable != None
      modifies this
      ensures cr3 == old(cr3) && kernelPageTables == old(kernelPageTables) && features == old(features)
      ensures info' == info || (cb == UnmapPages && info' == info.(physical := info'.physical))
      ensures cb != FlyMapPages ==> pool == old(pool)
      ensures cb == FlyMapPages ==> pool == old(pool) || (old(pool) != [] && pool == old(pool)[1..])
      ensures IsSuffix(pool, old(pool))
      ensures cb != FlyUnmapPages ==> freed == old(freed)
      ensures cb == FlyUnmapPages ==> freed == old(freed) || (|freed| == |old(freed)| + 1 && freed[..|old(freed)|] == old(freed))
      ensures info.destTable != Some(info.curTable) ==> flushed == old(flushed)
      ensures flushed == old(flushed) || flushed == old(flushed) + [info.virtual]
      ensures rc == 0 || rc == -1 || rc == -2
      ensures var r := CallbackEffect(cb, old(State()), features, info, table, index, level);
              rc == r.rc && info' == r.info && State() == r.s
    {
      CallbackFrame(cb, State(), features, info, table, index, level);
      info' := info;
      match cb
      case MapPages => rc := MapCallback(info, table, index, level);
      case UnmapPages => rc, info' := UnmapCallback(info, table, index, level);
      case FlyMapPages => rc := FlyMapCallback(info, table, index, level);
      case FlyUnmapPages => rc := FlyUnmapCallback(info, table, index, level);
      case SetAttributes => rc := SetAttrCallback(info, table, index, level);
      case ClonePages =>
        ghost var before := State();
        rc := CloneCallback(info, table, index, level);
        CloneAgrees(before, State(), rc, features, info, table, index, level);
    }
    /** The callback on the entry a pass maps at, its failure turned into pager_traverse's code. */
    method Visit(info: Info, cb: Callback, table: bv64, index: nat, level: nat) returns (rc: int, next: Info)
      requires 1 <= level <= 3 && index < EntryCount && info.Indices()
      requires cb == ClonePages ==> info.srcTable != None
      modifies this
      ensures rc == 0 || rc == CallbackFailure(level)
      ensures SameWalk(info, next, cb) && next.Indices()
      ensures cr3 == old(cr3) && kernelPageTables == old(kernelPageTables) && features == old(features)
      ensures IsSuffix(pool, old(pool))
      ensures cb != FlyUnmapPages ==> freed == old(freed)
      ensures info.destTable != Some(info.curTable) ==> flushed == old(flushed)
      ensures var r := CallbackEffect(cb, old(State()), features, info, table, index, level);
              (rc == 0 <==> r.rc == 0) && next == r.info && State() == r.s
    {
      var r;
      r, next := RunCallback(cb, info, table, index, level);
      rc := if r != 0 then CallbackFailure(level) else 0;
    }

    /**
     * The descent inside one pass of pager_traverse's loop, from the table
     * at `level` down: find (creating if need be) the entry for
     * info.virtual, and either run `cb` on it when this is the level the
     * pass maps at, or continue into the table it points to.  rc is 0 or
     * the code pager_traverse returns for the failure.
     */
    method Descend(info: Info, cb: Callback, table: bv64, level: nat, canGib: bool, can2Mib: bool)
      returns (rc: int, next: Info)
      requires 1 <= level <= 4 && info.Indices()
      requires cb == ClonePages ==> info.srcTable != None
      modifies this
      decreases level, 1
      ensures rc == 0 || -8 <= rc <= -2
      ensures MapLevel(canGib, can2Mib) <= level ==> rc == 0 || DescentFailure(rc, level, MapLevel(canGib, can2Mib))
      ensures SameWalk(info, next, cb) && next.Indices()
      ensures cr3 == old(cr3) && kernelPageTables == old(kernelPageTables) && features == old(features)
      ensures IsSuffix(pool, old(pool))
      ensures cb != FlyUnmapPages ==> freed == old(freed)
      ensures info.destTable != Some(info.curTable) ==> flushed == old(flushed)
      ensures var r := DescendEffect(old(State()), features, info, cb, table, level, canGib, can2Mib);
              rc == r.rc && next == r.info && State() == r.s
    {
      ghost var s0 := State();
      DescendFrame(s0, features, info, cb, table, level, canGib, can2Mib);
      if MapLevel(canGib, can2Mib) <= level {
        DescendCodes(s0, features, info, cb, table, level, canGib, can2Mib);
      }
      var index := GetPageTable(Some(table), level, info.virtual, info.attributes);
      if index == -1 {
        return TableFailure(level), info;
      }
      rc, next := DescendAt(s0, info, cb, table, index, level, canGib, can2Mib);
    }

    /** The rest of a descent once get_page_table has found the entry at `index`. */
    method DescendAt(ghost s0: Tables, info: Info, cb: Callback, table: bv64, index: nat, level: nat,
                     canGib: bool, can2Mib: bool)
      returns (rc: int, next: Info)
      requires 1 <= level <= 4 && info.Indices()
      requires cb == ClonePages ==> info.srcTable != None
      requires TableEffect(s0, features, table, level, info.virtual, info.attributes) == Indexed(index, State())
      modifies this
      decreases level, 0
      ensures cr3 == old(cr3) && kernelPageTables == old(kernelPageTables) && features == old(features)
      ensures var r := DescendEffect(s0, features, info, cb, table, level, canGib, can2Mib);
              rc == r.rc && next == r.info && State() == r.s
    {
      DescendFound(s0, State(), features, info, cb, table, index, level, canGib, can2Mib);
      next := WithIndex(info, level, index);
      if MapsAt(level, canGib, can2Mib) {
        rc, next := Visit(next, cb, table, index, level);
        return;
      }
      rc, next := Descend(next, cb, FrameOf(Load(mem, table, index)), level - 1, canGib, can2Mib);
    }


    /**
     * One pass of pager_traverse's loop: choose the step size, record the
     * choice in RESV0/RESV1, descend from the PML4 and advance by the step.
     */
    method TraverseStep(info: Info, cb: Callback) returns (rc: int, next: Info, step: nat)
      requires info.size > 0 && info.size % PageSize == 0 && info.Indices() && info.destTable != None
      requires cb == ClonePages ==> info.srcTable != None
      modifies this
      ensures step == Granule(info.size, info.attributes, features) && step <= info.size
      ensures next.attributes
              == WithStepBits(info.attributes, CanGib(info.size, info.attributes, features), Can2Mib(info.size, info.attributes))
      ensures rc == 0 || -8 <= rc <= -2
      ensures rc == 0 ==> next.size == info.size - step && next.size % PageSize == 0
      ensures rc == 0 ==> next.virtual == Add(info.virtual, StepValue(step))
      ensures rc == 0 && cb != UnmapPages ==> next.physical == Add(info.physical, StepValue(step))
      ensures rc != 0 ==> next.size == info.size && next.virtual == info.virtual
      ensures rc != 0 && cb != UnmapPages ==> next.physical == info.physical
      ensures next.Indices()
      ensures next.srcTable == info.srcTable && next.destTable == info.destTable && next.curTable == info.curTable
      ensures cr3 == old(cr3) && kernelPageTables == old(kernelPageTables) && features == old(features)
      ensures IsSuffix(pool, old(pool))
      ensures cb != FlyUnmapPages ==> freed == old(freed)
      ensures info.destTable != Some(info.curTable) ==> flushed == old(flushed)
      ensures var r := StepEffect(old(State()), features, info, cb); rc == r.rc && next == r.info && State() == r.s
    {
      StepFacts(State(), features, info, cb);
      StepAdvances(State(), features, info, cb);
      var canGib := CanGib(info.size, info.attributes, features);
      var can2Mib := Can2Mib(info.size, info.attributes);
      step := Granule(info.size, info.attributes, features);
      GranuleFits(info.size, info.attributes, features);
      var stepped := WithStepBits(info.attributes, canGib, can2Mib);
      rc, next := Descend(info.(attributes := stepped), cb, info.destTable.value, 4, canGib, can2Mib);
      if rc == 0 {
        next := Advance(next, step);
      }
    }

    /**
     * pager_traverse: walk the destination tables over the range, one 1 GiB,
     * 2 MiB or 4 KiB step at a time, creating directories on the way and
     * running `cb` on each leaf entry.  `steps` are the step sizes taken.
     */
    method Traverse(info0: Info, cb: Callback) returns (rc: int, info: Info, ghost steps: seq<nat>)
      requires info0.size % PageSize == 0 && info0.Indices()
      requires cb == ClonePages ==> info0.srcTable != None
      modifies this
      ensures TraverseCode(rc)
      ensures rc == -1 <==> info0.destTable == None
      ensures rc == -1 ==> info == info0 && steps == [] && mem == old(mem) && pool == old(pool)
      ensures rc == 0 ==> info.size == 0
      ensures rc < -1 ==> info.size > 0
      ensures Progress(info0, info, steps, features, cb)
      ensures cr3 == old(cr3) && kernelPageTables == old(kernelPageTables) && features == old(features)
      ensures IsSuffix(pool, old(pool))
      ensures cb != FlyUnmapPages ==> freed == old(freed)
      ensures info.destTable != Some(info.curTable) ==> flushed == old(flushed)
      ensures info0.destTable != None ==>
        var r := TraverseEffect(old(State()), features, info0, cb);
        rc == r.rc && info == r.info && State() == r.s && steps == TraverseSteps(old(State()), features, info0, cb)
      ensures rc < -1 ==> DescentFailure(rc, 4, PassLevel(info.size, info.attributes, features))
      ensures rc < -1 && cb != ClonePages ==> pool == []
      ensures (info0.destTable != None && cb != ClonePages
               && |old(pool)| >= 4 * |Schedule(info0.size, info0.attributes, features)|) ==> rc == 0
    {
      if info0.destTable == None {
        ProgressStart(info0, features, cb);
        return -1, info0, [];
      }
      ghost var s0 := State();
      TraverseCodes(s0, features, info0, cb);
      TraverseFrame(s0, features, info0, cb);
      TraverseProgress(s0, features, info0, cb);
      if cb != ClonePages && |pool| >= 4 * |Schedule(info0.size, info0.attributes, features)| {
        TraverseSucceeds(s0, features, info0, cb);
      }
      rc, info := TraverseLoop(info0, cb);
      steps := TraverseSteps(s0, features, info0, cb);
    }

    /** The loop of pager_traverse, once the destination tables are known: it does what TraverseEffect says. */
    method TraverseLoop(info0: Info, cb: Callback) returns (rc: int, info: Info)
      requires info0.size % PageSize == 0 && info0.Indices() && info0.destTable != None
      requires cb == ClonePages ==> info0.srcTable != None
      modifies this
      ensures cr3 == old(cr3) && kernelPageTables == old(kernelPageTables) && features == old(features)
      ensures var r := TraverseEffect(old(State()), features, info0, cb);
              rc == r.rc && info == r.info && State() == r.s
    {
      ghost var s0 := State();
      info := info0;
      rc := 0;
      while info.size > 0
        invariant info.size % PageSize == 0 && info.Indices() && info.destTable == info0.destTable
        invariant cb == ClonePages ==> info.srcTable != None
        invariant cr3 == old(cr3) && kernelPageTables == old(kernelPageTables) && features == old(features)
        invariant TraverseEffect(State(), features, info, cb) == TraverseEffect(s0, features, info0, cb)
        invariant rc == 0
        decreases info.size
      {
        ghost var before := info;
        ghost var sBefore := State();
        var r;
        var step;
        r, info, step := TraverseStep(info, cb);
        TraverseFirst(sBefore, features, before, cb, Outcome(r, State(), info));
        if r != 0 {
          rc := r;
          break;
        }
      }
    }

    /** The page tables an operation works on: `pageTables`, or the loaded ones when NULL. */
    function Target(pageTables: Option<bv64>): (t: bv64)
      reads this
      ensures pageTables == None ==> t == cr3
    {
      if pageTables == None then cr3 else pageTables.value
    }

    /** pager_map: map [virtual, virtual + size) to [physical, ...) with `attributes`; 0 or -1. */
    method Map(pageTables: Option<bv64>, virtual: bv64, physical: bv64, size: nat, attributes: bv32)
      returns (rc: int, ghost steps: seq<nat>)
      requires size % PageSize == 0
      modifies this
      ensures rc == 0 || rc == -1
      ensures rc == 0 ==> steps == Schedule(size, attributes, features) && Sum(steps) == size
      ensures cr3 == old(cr3) && kernelPageTables == old(kernelPageTables) && features == old(features)
      ensures freed == old(freed) && IsSuffix(pool, old(pool))
      ensures Target(pageTables) != cr3 ==> flushed == old(flushed)
      ensures var r := TraverseEffect(old(State()), features, Info(None, Some(old(Target(pageTables))), old(cr3), virtual, physical, size, attributes, 0, 0, 0, 0), MapPages);
              (rc == 0 <==> r.rc == 0) && State() == r.s
      ensures rc == -1 ==> pool == []
      ensures |old(pool)| >= 4 * |Schedule(size, attributes, features)| ==> rc == 0
    {
      var info := Info(None, Some(Target(pageTables)), cr3, virtual, physical, size, attributes, 0, 0, 0, 0);
      var r, after;
      r, after, steps := Traverse(info, MapPages);
      if r != 0 {
        return -1, steps;
      }
      TraverseDone(info, after, steps, features, MapPages);
      rc := 0;
    }

    /**
     * pager_unmap: clear the range; when `wantPhysical` (a non-NULL out
     * pointer) also report info.physical as the traversal left it.
     */
    method Unmap(pageTables: Option<bv64>, virtual: bv64, size: nat, wantPhysical: bool)
      returns (rc: int, physical: Option<bv64>, ghost steps: seq<nat>)
      requires size % PageSize == 0
      modifies this
      ensures rc == 0 || rc == -1
      ensures physical != None <==> rc == 0 && wantPhysical
      ensures rc == 0 ==> steps == Schedule(size, 0, features) && Sum(steps) == size
      ensures cr3 == old(cr3) && kernelPageTables == old(kernelPageTables) && features == old(features)
      ensures freed == old(freed) && IsSuffix(pool, old(pool))
      ensures Target(pageTables) != cr3 ==> flushed == old(flushed)
      ensures var r := TraverseEffect(old(State()), features, Info(None, Some(old(Target(pageTables))), old(cr3), virtual, 0, size, 0, 0, 0, 0, 0), UnmapPages);
              (rc == 0 <==> r.rc == 0) && State() == r.s && (physical != None ==> physical.value == r.info.physical)
      ensures rc == -1 ==> pool == []
      ensures |old(pool)| >= 4 * |Schedule(size, 0, features)| ==> rc == 0
    {
      var info := Info(None, Some(Target(pageTables)), cr3, virtual, 0, size, 0, 0, 0, 0, 0);
      var r, after;
      r, after, steps := Traverse(info, UnmapPages);
      if r != 0 {
        return -1, None, steps;
      }
      TraverseDone(info, after, steps, features, UnmapPages);
      physical := if wantPhysical then Some(after.physical) else None;
      rc := 0;
    }

    /** pager_fly_map: back the range with freshly allocated pages, always 4 KiB at a time. */
    method FlyMap(pageTables: Option<bv64>, virtual: bv64, size: nat, attributes: bv32)
      returns (rc: int, ghost steps: seq<nat>)
      requires size % PageSize == 0
      modifies this
      ensures rc == 0 || rc == -1
      ensures rc == 0 ==> steps == seq(size / PageSize, _ => PageSize) && Sum(steps) == size
      ensures cr3 == old(cr3) && kernelPageTables == old(kernelPageTables) && features == old(features)
      ensures freed == old(freed) && IsSuffix(pool, old(pool))
      ensures Target(pageTables) != cr3 ==> flushed == old(flushed)
      ensures var r := TraverseEffect(old(State()), features, Info(None, Some(old(Target(pageTables))), old(cr3), virtual, 0, size, WithForce4K(attributes), 0, 0, 0, 0), FlyMapPages);
              (rc == 0 <==> r.rc == 0) && State() == r.s
      ensures rc == -1 ==> pool == []
      ensures |old(pool)| >= 4 * |Schedule(size, WithForce4K(attributes), features)| ==> rc == 0
    {
      var forced := WithForce4K(attributes);
      var info := Info(None, Some(Target(pageTables)), cr3, virtual, 0, size, forced, 0, 0, 0, 0);
      var r, after;
      r, after, steps := Traverse(info, FlyMapPages);
      if r != 0 {
        return -1, steps;
      }
      TraverseDone(info, after, steps, features, FlyMapPages);
      ScheduleForced4K(size, forced, features);
      rc := 0;
    }

    /** pager_fly_unmap: clear the range and hand each entry's frame back to the allocator. */
    method FlyUnmap(pageTables: Option<bv64>, virtual: bv64, size: nat) returns (rc: int, ghost steps: seq<nat>)
      requires size % PageSize == 0
      modifies this
      ensures rc == 0 || rc == -1
      ensures rc == 0 ==> steps == Schedule(size, 0, features) && Sum(steps) == size
      ensures cr3 == old(cr3) && kernelPageTables == old(kernelPageTables) && features == old(features)
      ensures IsSuffix(pool, old(pool))
      ensures Target(pageTables) != cr3 ==> flushed == old(flushed)
      ensures var r := TraverseEffect(old(State()), features, Info(None, Some(old(Target(pageTables))), old(cr3), virtual, 0, size, 0, 0, 0, 0, 0), FlyUnmapPages);
              (rc == 0 <==> r.rc == 0) && State() == r.s
      ensures rc == -1 ==> pool == []
      ensures |old(pool)| >= 4 * |Schedule(size, 0, features)| ==> rc == 0
    {
      var info := Info(None, Some(Target(pageTables)), cr3, virtual, 0, size, 0, 0, 0, 0, 0);
      var r, after;
      r, after, steps := Traverse(info, FlyUnmapPages);
      if r != 0 {
        return -1, steps;
      }
      TraverseDone(info, after, steps, features, FlyUnmapPages);
      rc := 0;
    }

    /** pager_set_attr: rewrite the attribute bits of every entry in the range. */
    method SetAttr(pageTables: Option<bv64>, virtual: bv64, size: nat, attributes: bv32)
      returns (rc: int, ghost steps: seq<nat>)
      requires size % PageSize == 0
      modifies this
      ensures rc == 0 || rc == -1
      ensures rc == 0 ==> steps == Schedule(size, attributes, features) && Sum(steps) == size
      ensures cr3 == old(cr3) && kernelPageTables == old(kernelPageTables) && features == old(features)
      ensures freed == old(freed) && IsSuffix(pool, old(pool))
      ensures Target(pageTables) != cr3 ==> flushed == old(flushed)
      ensures var r := TraverseEffect(old(State()), features, Info(None, Some(old(Target(pageTables))), old(cr3), virtual, 0, size, attributes, 0, 0, 0, 0), SetAttributes);
              (rc == 0 <==> r.rc == 0) && State() == r.s
      ensures rc == -1 ==> pool == []
      ensures |old(pool)| >= 4 * |Schedule(size, attributes, features)| ==> rc == 0
    {
      var info := Info(None, Some(Target(pageTables)), cr3, virtual, 0, size, attributes, 0, 0, 0, 0);
      var r, after;
      r, after, steps := Traverse(info, SetAttributes);
      if r != 0 {
        return -1, steps;
      }
      TraverseDone(info, after, steps, features, SetAttributes);
      rc := 0;
    }

    /**
     * pager_clone: copy the entries of a range between `pageTables` (or the
     * loaded tables when NULL) and the loaded tables; source = 0 copies from
     * the loaded tables, any other value copies into them.
     */
    method Clone(pageTables: Option<bv64>, virtSrc: bv64, virtDest: bv64, size: nat, source: int)
      returns (rc: int, ghost steps: seq<nat>)
      requires size % PageSize == 0
      modifies this
      ensures rc == 0 || rc == -1
      ensures rc == 0 ==> steps == Schedule(size, 0, features) && Sum(steps) == size
      ensures cr3 == old(cr3) && kernelPageTables == old(kernelPageTables) && features == old(features)
      ensures freed == old(freed) && IsSuffix(pool, old(pool))
      ensures source == 0 && Target(pageTables) != cr3 ==> flushed == old(flushed)
      ensures var tables := old(Target(pageTables));
              var r := TraverseEffect(old(State()), features,
                                      Info(Some(if source != 0 then tables else old(cr3)),
                                           Some(if source != 0 then old(cr3) else tables),
                                           old(cr3), virtDest, virtSrc, size, 0, 0, 0, 0, 0), ClonePages);
              (rc == 0 <==> r.rc == 0) && State() == r.s
    {
      var tables := Target(pageTables);
      var src := if source != 0 then tables else cr3;
      var dest := if source != 0 then cr3 else tables;
      var info := Info(Some(src), Some(dest), cr3, virtDest, virtSrc, size, 0, 0, 0, 0, 0);
      var r, after;
      r, after, steps := Traverse(info, ClonePages);
      if r != 0 {
        return -1, steps;
      }
      TraverseDone(info, after, steps, features, ClonePages);
      rc := 0;
    }

    /** pager_create_page_tables: a fresh zeroed PML4, or None (NULL) when no page is left. */
    method CreatePageTables() returns (tables: Option<bv64>)
      modifies this
      ensures tables == None <==> old(pool) == []
      ensures tables == None ==> mem == old(mem) && pool == old(pool)
      ensures tables != None ==>
        tables.value == old(pool)[0] && pool == old(pool)[1..] && mem == ZeroPage(old(mem), tables.value)
        && forall i :: Load(mem, tables.value, i) == 0
      ensures cr3 == old(cr3) && kernelPageTables == old(kernelPageTables) && features == old(features)
      ensures freed == old(freed) && flushed == old(flushed)
    {
      tables := AllocPage();
      if tables == None {
        return;
      }
      mem := ZeroPage(mem, tables.value);
      forall i ensures Load(mem, tables.value, i) == 0 {
        LoadZeroPage(old(mem), tables.value, tables.value, i);
      }
    }

    /** pager_switch_to_kpages: load the kernel's tables and return the root that was loaded. */
    method SwitchToKernelPages() returns (previous: bv64)
      modifies this
      ensures previous == old(cr3) && cr3 == kernelPageTables
      ensures kernelPageTables == old(kernelPageTables) && mem == old(mem) && features == old(features)
      ensures pool == old(pool) && freed == old(freed) && flushed == old(flushed)
    {
      previous := cr3;
      cr3 := kernelPageTables;
    }

    /** init_pager: remember the loaded tables as the kernel's; always 0. */
    method InitPager() returns (rc: int)
      modifies this
      ensures rc == 0 && kernelPageTables == old(cr3)
      ensures cr3 == old(cr3) && mem == old(mem) && features == old(features)
      ensures pool == old(pool) && freed == old(freed) && flushed == old(flushed)
    {
      kernelPageTables := cr3;
      rc := 0;
    }
  }

  /**
   * init_pager followed by two pager_switch_to_kpages: the first returns the
   * boot root, the second the kernel root, which is that same root.
   */
  method SwitchTwiceAfterInit(pager: PageManager) returns (first: bv64, second: bv64)
    modifies pager
    ensures first == old(pager.cr3) && second == old(pager.cr3) && pager.cr3 == old(pager.cr3)
  {
    var _ := pager.InitPager();
    first := pager.SwitchToKernelPages();
    second := pager.SwitchToKernelPages();
  }
}
