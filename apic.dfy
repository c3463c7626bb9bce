/**
 * Interrupt routing through the I/O APICs (apic.c): the list of
 * controllers built from the ACPI MADT, the search for the controller
 * serving a global system interrupt (GSI), the redirection entry written
 * for it, and the fallback that masks the legacy 8259 PICs.
 *
 * The MADT enumeration, `smp_init_ap` and `alloc` are outside the model:
 * the entries the enumeration yields and whether each allocation succeeds
 * are inputs, and each `smp_init_ap` call is returned as a record.
 */
module Apic {
  import opened Common
  import IoApic
  import Port

  /** `ARC_IOAPICElement`: one controller, the first GSI it serves and its maximum redirection entry. */
  class IoApicElement {
    const ioapic: IoApic.IoApic
    const gsi: U32
    const mre: U32
    const id: U32

    constructor (ioapic: IoApic.IoApic, gsi: U32, mre: U32, id: U32)
      ensures this.ioapic == ioapic && this.gsi == gsi && this.mre == mre && this.id == id
    {
      this.ioapic := ioapic;
      this.gsi := gsi;
      this.mre := mre;
      this.id := id;
    }
  }

  /** `gsi >= current->gsi && gsi <= current->gsi + current->mre`, the sum wrapping as a `uint32_t`. */
  predicate Covers(e: IoApicElement, gsi: U32)
  {
    e.gsi <= gsi <= (e.gsi + e.mre) % U32Modulus
  }

  /** The position of the first element of `list` that serves `gsi`. */
  function FirstCovering(list: seq<IoApicElement>, gsi: U32): (k: nat)
    requires exists j :: 0 <= j < |list| && Covers(list[j], gsi)
    ensures k < |list| && Covers(list[k], gsi)
    ensures forall j :: 0 <= j < k ==> !Covers(list[j], gsi)
  {
    if Covers(list[0], gsi) then 0
    else
      assert exists j :: 0 <= j < |list[1..]| && Covers(list[1..][j], gsi) by {
        var j :| 0 <= j < |list| && Covers(list[j], gsi);
        assert j != 0 && list[1..][j - 1] == list[j];
      }
      1 + FirstCovering(list[1..], gsi)
  }

  /**
   * The redirection entry `interrupts_map_gsi` builds: flags bit 0 is the
   * trigger mode, bit 1 the polarity, bit 2 the destination mode; the
   * vector (`to_irq + 32`, a wrapping `uint32_t` sum) and the destination
   * keep their low 8 bits; everything else, the mask included, is zero.
   */
  function GsiEntry(toIrq: bv32, toId: bv32, flags: bv8): (e: IoApic.RedirEntry)
    ensures e.vector as bv32 == (toIrq + 32) & 0xFF && e.destination as bv32 == toId & 0xFF
    ensures (e.trigger == 1 <==> flags & 1 == 1) && (e.polarity == 1 <==> flags & 2 == 2)
    ensures (e.destMode == 1 <==> flags & 4 == 4)
    ensures e.mask == 0 && e.deliveryMode == 0 && e.deliveryStatus == 0 && e.remoteIrr == 0 && e.reserved == 0
  {
    IoApic.RedirEntry(((toIrq + 32) & 0xFF) as bv8, 0, ((flags >> 2) & 1) as bv1, 0, ((flags >> 1) & 1) as bv1, 0,
                      (flags & 1) as bv1, 0, 0, (toId & 0xFF) as bv8)
  }

  /** A LAPIC entry of the MADT. */
  datatype MadtLapic = MadtLapic(uid: U32, id: U32, flags: U32)

  /** An I/O APIC entry of the MADT. */
  datatype MadtIoApic = MadtIoApic(address: U32, gsi: U32, id: U32)

  /** One `smp_init_ap(id, uid, flags, 0xFF)` call. */
  datatype ApCall = ApCall(id: U32, uid: U32, flags: U32, version: bv8)

  /** How many I/O APIC descriptors are allocated before the first allocation failure. */
  function Allocated(allocs: seq<bool>): (n: nat)
    ensures n <= |allocs|
    ensures forall k :: 0 <= k < n ==> allocs[k]
    ensures n < |allocs| ==> !allocs[n]
  {
    if allocs == [] || !allocs[0] then 0 else 1 + Allocated(allocs[1..])
  }

  /** What `init_ioapic` reports for a controller whose mapping answered `mapRc`. */
  function ReportedMre(mapRc: int, registers: map<U32, bv32>): (mre: U32)
    ensures mre < 0x100
    ensures mapRc != 0 && mapRc != IoApic.AlreadyMapped ==> mre == 0
  {
    if mapRc != 0 && mapRc != IoApic.AlreadyMapped then 0
    else IoApic.MaxRedirEntry(IoApic.Stored(registers, IoApic.VersionRegister)) as int
  }

  /** The legacy 8259 interrupt-mask ports, master then slave. */
  const MasterPicData: Port.PortNo := 0x21
  const SlavePicData: Port.PortNo := 0xA1

  /** The interrupt-routing state: `ioapic_list`, head first. */
  class Apic {
    var list: seq<IoApicElement>

    constructor ()
      ensures list == []
    {
      list := [];
    }

    /**
     * `interrupts_map_gsi`: walk the list to the first controller whose
     * range holds `gsi` and write the entry built from the arguments at
     * index `gsi - gsi_base` of that controller.  The source has no
     * not-found branch, so the line must be covered.
     */
    method MapGsi(gsi: U32, toIrq: bv32, toId: bv32, flags: bv8) returns (rc: int)
      requires exists j :: 0 <= j < |list| && Covers(list[j], gsi)
      modifies list[FirstCovering(list, gsi)].ioapic
      ensures rc == 0
      ensures var e := list[FirstCovering(list, gsi)];
              e.ioapic.registers == IoApic.StoreRedir(old(e.ioapic.registers), gsi - e.gsi, IoApic.Pack(GsiEntry(toIrq, toId, flags)))
              && IoApic.Unpack(IoApic.RedirValue(e.ioapic.registers, gsi - e.gsi)) == GsiEntry(toIrq, toId, flags)
    {
      var current := Lookup(gsi);
      var table := GsiEntry(toIrq, toId, flags);
      rc := current.ioapic.WriteRedirTbl(gsi - current.gsi, table);
      IoApic.UnpackPack(table);
      rc := 0;
    }

    /** The list walk of `interrupts_map_gsi`: the first element serving `gsi`. */
    method Lookup(gsi: U32) returns (current: IoApicElement)
      requires exists j :: 0 <= j < |list| && Covers(list[j], gsi)
      ensures current == list[FirstCovering(list, gsi)]
    {
      var i := 0;
      while !Covers(list[i], gsi)
        invariant 0 <= i <= FirstCovering(list, gsi)
        decreases FirstCovering(list, gsi) - i
      {
        i := i + 1;
      }
      current := list[i];
    }

    /**
     * `init_apic`: announce every LAPIC to `smp_init_ap`, then for each
     * I/O APIC read its maximum redirection entry and prepend a
     * descriptor for it, stopping at the first allocation failure; with
     * no I/O APIC recorded, mask both 8259 PICs.  Returns 0 either way.
     */
    method InitApic(lapics: seq<MadtLapic>, ioapics: seq<MadtIoApic>, windows: seq<IoApic.IoApic>,
                    mapRcs: seq<int>, allocs: seq<bool>, ports: Port.PortSpace)
      returns (rc: int, apCalls: seq<ApCall>)
      requires |windows| == |ioapics| && |mapRcs| == |ioapics| && |allocs| == |ioapics|
      requires ports.Valid()
      modifies this, ports, set w | w in windows
      ensures rc == 0
      ensures apCalls == seq(|lapics|, k requires 0 <= k < |lapics| => ApCall(lapics[k].id, lapics[k].uid, lapics[k].flags, 0xFF))
      ensures var n := Allocated(allocs);
              |list| == n + |old(list)| && list[n..] == old(list)
              && forall j :: 0 <= j < n ==>
                   var k := n - 1 - j;
                   fresh(list[j]) && list[j].ioapic == windows[k] && list[j].gsi == ioapics[k].gsi
                   && list[j].id == ioapics[k].id && list[j].mre == ReportedMre(mapRcs[k], windows[k].registers)
      ensures forall w :: w in windows ==> w.registers == old(w.registers)
      ensures ports.Valid()
      ensures list == [] ==> ports.ports == old(ports.ports)[MasterPicData as int := 0xFF][SlavePicData as int := 0xFF]
      ensures list != [] ==> ports.ports == old(ports.ports)
    {
      apCalls := AnnounceLapics(lapics);
      RecordIoApics(ioapics, windows, mapRcs, allocs);
      if list == [] {
        ports.Outb(MasterPicData, 0xFF);
        ports.Outb(SlavePicData, 0xFF);
      }
      rc := 0;
    }

    /** The MADT LAPIC pass of `init_apic`: one `smp_init_ap(id, uid, flags, 0xFF)` per entry, in order. */
    method AnnounceLapics(lapics: seq<MadtLapic>) returns (apCalls: seq<ApCall>)
      ensures apCalls == seq(|lapics|, k requires 0 <= k < |lapics| => ApCall(lapics[k].id, lapics[k].uid, lapics[k].flags, 0xFF))
    {
      apCalls := [];
      var i := 0;
      while i < |lapics|
        invariant 0 <= i <= |lapics|
        invariant apCalls == seq(i, k requires 0 <= k < i => ApCall(lapics[k].id, lapics[k].uid, lapics[k].flags, 0xFF))
      {
        apCalls := apCalls + [ApCall(lapics[i].id, lapics[i].uid, lapics[i].flags, 0xFF)];
        i := i + 1;
      }
    }

    /**
     * The MADT I/O APIC pass of `init_apic`: map each controller and read
     * its maximum redirection entry, then prepend a descriptor for it,
     * stopping at the first allocation failure.
     */
    method RecordIoApics(ioapics: seq<MadtIoApic>, windows: seq<IoApic.IoApic>, mapRcs: seq<int>, allocs: seq<bool>)
      requires |windows| == |ioapics| && |mapRcs| == |ioapics| && |allocs| == |ioapics|
      modifies this, set w | w in windows
      ensures var n := Allocated(allocs);
              |list| == n + |old(list)| && list[n..] == old(list)
              && forall j :: 0 <= j < n ==>
                   var k := n - 1 - j;
                   fresh(list[j]) && list[j].ioapic == windows[k] && list[j].gsi == ioapics[k].gsi
                   && list[j].id == ioapics[k].id && list[j].mre == ReportedMre(mapRcs[k], windows[k].registers)
      ensures forall w :: w in windows ==> w.registers == old(w.registers)
    {
      var k := 0;
      while k < |ioapics|
        invariant 0 <= k <= Allocated(allocs)
        invariant |list| == k + |old(list)| && list[k..] == old(list)
        invariant forall j :: 0 <= j < k ==>
                    var m := k - 1 - j;
                    fresh(list[j]) && list[j].ioapic == windows[m] && list[j].gsi == ioapics[m].gsi
                    && list[j].id == ioapics[m].id && list[j].mre == ReportedMre(mapRcs[m], windows[m].registers)
        invariant forall w :: w in windows ==> w.registers == old(w.registers)
      {
        var mre := windows[k].InitIoApic(mapRcs[k]);
        if !allocs[k] {
          break;
        }
        var next := new IoApicElement(windows[k], ioapics[k].gsi, mre as int, ioapics[k].id);
        list := [next] + list;
        k := k + 1;
      }
    }
  }
}
