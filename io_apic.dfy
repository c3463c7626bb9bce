/**
 * The I/O APIC (apic/io.h, apic/io.c): the packed 64-bit redirection
 * entry and the select/window register protocol of the Intel 82093AA
 * I/O APIC datasheet.
 *
 * Software reaches the controller's registers through two memory-mapped
 * words: it writes a register number to IOREGSEL and then reads or writes
 * that register through IOWIN.  The model keeps the bus accesses in order,
 * and, for the read-back properties, treats the registers behind the
 * window as plain storage that returns what was last written (a register
 * never written reads as zero).
 */
module IoApic {

  import opened Common

  /** Byte offset of IOREGSEL in `ARC_IOAPICReg` (io.h:33). */
  const IoRegSelOffset: nat := 0
  /** Byte offset of IOWIN: the first field is `aligned(16)`, so the second starts 16 bytes in (io.h:34). */
  const IoWinOffset: nat := 0x10

  /** IOAPICVER, the version register. */
  const VersionRegister: U32 := 0x01
  /** The first redirection-table register. */
  const RedirBase: int := 0x10

  /** `pager_map`'s "already mapped" code, which `init_ioapic` tolerates. */
  const AlreadyMapped: int := -5

  // ---------------------------------------------------------------------------
  // The redirection entry (io.h:37-48, IOREDTBL in section 3.2.4 of the datasheet)
  // ---------------------------------------------------------------------------

  /** `ARC_IOAPICRedirTable`, field by field, each at its declared width. */
  datatype RedirEntry = RedirEntry(
    vector: bv8,          // bits 0-7
    deliveryMode: bv3,    // bits 8-10
    destMode: bv1,        // bit 11
    deliveryStatus: bv1,  // bit 12
    polarity: bv1,        // bit 13
    remoteIrr: bv1,       // bit 14
    trigger: bv1,         // bit 15
    mask: bv1,            // bit 16
    reserved: bv39,       // bits 17-55
    destination: bv8)     // bits 56-63

  /** The widths of the fields in declaration order. */
  const FieldWidths: seq<nat> := [8, 3, 1, 1, 1, 1, 1, 1, 39, 8]

  function Sum(s: seq<nat>): nat
  {
    if s == [] then 0 else s[0] + Sum(s[1..])
  }

  /** The packed struct is exactly the 64 bits `ioapic_write_redir_tbl` reads as one `uint64_t`. */
  lemma FieldWidthsFillOneWord()
    ensures Sum(FieldWidths) == 64
  {
    assert FieldWidths[1..] == [3, 1, 1, 1, 1, 1, 1, 39, 8];
    assert FieldWidths[2..] == [1, 1, 1, 1, 1, 1, 39, 8];
    assert FieldWidths[3..] == [1, 1, 1, 1, 1, 39, 8];
    assert FieldWidths[4..] == [1, 1, 1, 1, 39, 8];
    assert FieldWidths[5..] == [1, 1, 1, 39, 8];
    assert FieldWidths[6..] == [1, 1, 39, 8];
    assert FieldWidths[7..] == [1, 39, 8];
    assert FieldWidths[8..] == [39, 8];
    assert FieldWidths[9..] == [8];
  }

  /** The 64-bit value the packed struct occupies in memory (little-endian, fields from bit 0 up). */
  function Pack(e: RedirEntry): (w: bv64)
    ensures w & 0xFF == e.vector as bv64
    ensures (w >> 8) & 0x7 == e.deliveryMode as bv64
    ensures (w >> 11) & 1 == e.destMode as bv64
    ensures (w >> 12) & 1 == e.deliveryStatus as bv64
    ensures (w >> 13) & 1 == e.polarity as bv64
    ensures (w >> 14) & 1 == e.remoteIrr as bv64
    ensures (w >> 15) & 1 == e.trigger as bv64
    ensures (w >> 16) & 1 == e.mask as bv64
    ensures (w >> 17) & 0x7F_FFFF_FFFF == e.reserved as bv64
    ensures w >> 56 == e.destination as bv64
  {
    (e.vector as bv64)
    | ((e.deliveryMode as bv64) << 8)
    | ((e.destMode as bv64) << 11)
    | ((e.deliveryStatus as bv64) << 12)
    | ((e.polarity as bv64) << 13)
    | ((e.remoteIrr as bv64) << 14)
    | ((e.trigger as bv64) << 15)
    | ((e.mask as bv64) << 16)
    | ((e.reserved as bv64) << 17)
    | ((e.destination as bv64) << 56)
  }

  /** The entry a 64-bit value read back from the table describes. */
  function Unpack(w: bv64): RedirEntry
  {
    RedirEntry((w & 0xFF) as bv8, ((w >> 8) & 0x7) as bv3, ((w >> 11) & 1) as bv1, ((w >> 12) & 1) as bv1,
               ((w >> 13) & 1) as bv1, ((w >> 14) & 1) as bv1, ((w >> 15) & 1) as bv1, ((w >> 16) & 1) as bv1,
               ((w >> 17) & 0x7F_FFFF_FFFF) as bv39, (w >> 56) as bv8)
  }

  /** The fields are disjoint: every entry reads back from its packed word unchanged. */
  lemma UnpackPack(e: RedirEntry)
    ensures Unpack(Pack(e)) == e
  {
  }

  /** The fields cover all 64 bits: every word is the packing of the entry it unpacks to. */
  lemma PackUnpack(w: bv64)
    ensures Pack(Unpack(w)) == w
  {
  }

  // ---------------------------------------------------------------------------
  // Redirection-table register numbers (io.c:44-45, 56-57)
  // ---------------------------------------------------------------------------

  /**
   * `(table_idx * 2) + 0x10`, as the `uint32_t` register number it is
   * passed as: the arithmetic is taken modulo 2^32, and the result is
   * always even.
   */
  function LowRegister(idx: int): (reg: U32)
    ensures reg == (RedirBase + 2 * idx) % U32Modulus
    ensures reg % 2 == 0
  {
    DoubleWraps(idx + 8);
    2 * ((idx + 8) % 0x8000_0000)
  }

  /** `low_dword_i + 1`: the odd register right after the low one, which never wraps. */
  function HighRegister(idx: int): (reg: U32)
    ensures reg % 2 == 1 && reg == LowRegister(idx) + 1
  {
    LowRegister(idx) + 1
  }

  /** Doubling commutes with the wrap: 2y modulo 2^32 is twice y modulo 2^31. */
  lemma DoubleWraps(y: int)
    ensures (2 * y) % U32Modulus == 2 * (y % 0x8000_0000)
  {
    var q := y / 0x8000_0000;
    var m := y % 0x8000_0000;
    assert y == q * 0x8000_0000 + m;
    assert 2 * y == q * U32Modulus + 2 * m;
  }

  /**
   * Distinct table indices below 2^31 - 8 (so that no register number
   * wraps) use disjoint register pairs: no write to one entry lands on
   * another's registers.
   */
  lemma DisjointPairs(i: int, j: int)
    requires 0 <= i < 0x7FFF_FFF8 && 0 <= j < 0x7FFF_FFF8 && i != j
    ensures LowRegister(i) != LowRegister(j) && LowRegister(i) != HighRegister(j)
    ensures HighRegister(i) != LowRegister(j) && HighRegister(i) != HighRegister(j)
  {
  }

  // ---------------------------------------------------------------------------
  // The registers behind the window
  // ---------------------------------------------------------------------------

  /** What the data window shows for register `reg`, if the registers are plain storage. */
  function Stored(regs: map<U32, bv32>, reg: U32): bv32
  {
    if reg in regs then regs[reg] else 0
  }

  /** `value & UINT32_MAX`: the low dword. */
  function Low32(value: bv64): bv32
  {
    (value & 0xFFFF_FFFF) as bv32
  }

  /** `(value >> 32) & UINT32_MAX`: the high dword. */
  function High32(value: bv64): bv32
  {
    ((value >> 32) & 0xFFFF_FFFF) as bv32
  }

  /** The low then the high dword of `value` stored at entry `idx`. */
  function StoreRedir(regs: map<U32, bv32>, idx: int, value: bv64): map<U32, bv32>
  {
    regs[LowRegister(idx) := Low32(value)][HighRegister(idx) := High32(value)]
  }

  /** The 64-bit value `ioapic_read_redir_tbl` assembles from entry `idx`'s two registers. */
  function RedirValue(regs: map<U32, bv32>, idx: int): bv64
  {
    Join(Stored(regs, LowRegister(idx)), Stored(regs, HighRegister(idx)))
  }

  /** A 64-bit value from its low and high dwords. */
  function Join(low: bv32, high: bv32): bv64
  {
    (low as bv64) | ((high as bv64) << 32)
  }

  /** Storing an entry leaves every register outside its pair as it was. */
  lemma StoreRedirElsewhere(regs: map<U32, bv32>, idx: int, value: bv64, reg: U32)
    requires reg != LowRegister(idx) && reg != HighRegister(idx)
    ensures Stored(StoreRedir(regs, idx, value), reg) == Stored(regs, reg)
  {
  }

  /** Splitting a word into dwords and joining them again gives the word back. */
  lemma JoinHalves(value: bv64)
    ensures Join(Low32(value), High32(value)) == value
  {
  }

  /** Reading entry `idx` after writing `value` to it gives `value` back. */
  lemma RedirReadAfterWrite(regs: map<U32, bv32>, idx: int, value: bv64)
    ensures RedirValue(StoreRedir(regs, idx, value), idx) == value
  {
    var lo, hi := LowRegister(idx), HighRegister(idx);
    var m := StoreRedir(regs, idx, value);
    assert Stored(m, lo) == Low32(value);
    assert Stored(m, hi) == High32(value);
    JoinHalves(value);
  }

  /** Writing entry `i` leaves every other entry `j` reading as before. */
  lemma RedirWriteKeepsOthers(regs: map<U32, bv32>, i: int, j: int, value: bv64)
    requires 0 <= i < 0x7FFF_FFF8 && 0 <= j < 0x7FFF_FFF8 && i != j
    ensures RedirValue(StoreRedir(regs, i, value), j) == RedirValue(regs, j)
  {
    DisjointPairs(i, j);
    StoreRedirElsewhere(regs, i, value, LowRegister(j));
    StoreRedirElsewhere(regs, i, value, HighRegister(j));
  }

  /** `((ver >> 16) & 0xFF)`: the maximum redirection entry field of IOAPICVER. */
  function MaxRedirEntry(version: bv32): (mre: bv32)
    ensures mre < 0x100
    ensures mre << 16 == version & 0xFF_0000
  {
    (version >> 16) & 0xFF
  }

  /** One access on the register window, as the bus sees it. */
  datatype Access = Select(reg: U32) | WindowWrite(value: bv32) | WindowRead(value: bv32)

  /** `ARC_IOAPICReg`: one I/O APIC's register window. */
  class IoApic {
    /** IOREGSEL: the register IOWIN currently shows. */
    var ioregsel: U32
    /** The registers behind the window. */
    var registers: map<U32, bv32>
    /** Every access made through the window, oldest first. */
    var bus: seq<Access>

    constructor (registers: map<U32, bv32>)
      ensures this.registers == registers && ioregsel == 0 && bus == []
    {
      this.registers := registers;
      ioregsel := 0;
      bus := [];
    }

    /** `ioapic_read_register`: select `reg`, then read the window (io.c:31-34). */
    method ReadRegister(reg: U32) returns (value: bv32)
      modifies this
      ensures value == Stored(registers, reg)
      ensures ioregsel == reg && registers == old(registers)
      ensures bus == old(bus) + [Select(reg), WindowRead(value)]
    {
      ioregsel := reg;
      value := Stored(registers, reg);
      bus := bus + [Select(reg), WindowRead(value)];
    }

    /** `ioapic_write_register`: select `reg`, then write the window; returns 0 (io.c:36-41). */
    method WriteRegister(reg: U32, value: bv32) returns (rc: int)
      modifies this
      ensures rc == 0
      ensures ioregsel == reg && registers == old(registers)[reg := value]
      ensures bus == old(bus) + [Select(reg), WindowWrite(value)]
    {
      ioregsel := reg;
      registers := registers[reg := value];
      bus := bus + [Select(reg), WindowWrite(value)];
      rc := 0;
    }

    /**
     * `ioapic_write_redir_tbl`: the packed entry's low dword goes to
     * register 0x10 + 2i first, then its high dword to 0x11 + 2i
     * (io.c:43-53).
     */
    method WriteRedirTbl(idx: int, table: RedirEntry) returns (rc: int)
      modifies this
      ensures rc == 0
      ensures registers == StoreRedir(old(registers), idx, Pack(table))
      ensures RedirValue(registers, idx) == Pack(table)
      ensures ioregsel == HighRegister(idx)
      ensures bus == old(bus) + [Select(LowRegister(idx)), WindowWrite(Low32(Pack(table))),
                                 Select(HighRegister(idx)), WindowWrite(High32(Pack(table)))]
    {
      var low := LowRegister(idx);
      var high := HighRegister(idx);
      var value := Pack(table);
      rc := WriteRegister(low, Low32(value));
      rc := WriteRegister(high, High32(value));
      rc := 0;
      RedirReadAfterWrite(old(registers), idx, value);
    }

    /**
     * `ioapic_read_redir_tbl`: the low register ORed with the high
     * register shifted up 32 bits (io.c:55-60).  The two reads are the
     * operands of `|`, which C evaluates in an unspecified order: the
     * compiler's choice is `lowFirst`.  The value is the same either way;
     * the bus log and the register left selected follow the order.
     */
    method ReadRedirTbl(idx: int, lowFirst: bool) returns (value: bv64)
      modifies this
      ensures value == RedirValue(registers, idx)
      ensures registers == old(registers)
      ensures var lowRead := [Select(LowRegister(idx)), WindowRead(Stored(registers, LowRegister(idx)))];
              var highRead := [Select(HighRegister(idx)), WindowRead(Stored(registers, HighRegister(idx)))];
              if lowFirst then ioregsel == HighRegister(idx) && bus == old(bus) + lowRead + highRead
              else ioregsel == LowRegister(idx) && bus == old(bus) + highRead + lowRead
    {
      var low, high;
      if lowFirst {
        low := ReadRegister(LowRegister(idx));
        high := ReadRegister(HighRegister(idx));
      } else {
        high := ReadRegister(HighRegister(idx));
        low := ReadRegister(LowRegister(idx));
      }
      value := Join(low, high);
    }

    /**
     * `init_ioapic` once `pager_map` has answered `mapRc`: a failure
     * other than "already mapped" gives 0 without touching the
     * controller; otherwise the result is IOAPICVER's maximum
     * redirection entry field (io.c:62-75).
     */
    method InitIoApic(mapRc: int) returns (mre: bv32)
      modifies this
      ensures mapRc != 0 && mapRc != AlreadyMapped ==> mre == 0 && unchanged(this)
      ensures mapRc == 0 || mapRc == AlreadyMapped ==>
                mre == MaxRedirEntry(Stored(registers, VersionRegister)) && ioregsel == VersionRegister
                && bus == old(bus) + [Select(VersionRegister), WindowRead(Stored(registers, VersionRegister))]
      ensures registers == old(registers)
    {
      if mapRc != 0 && mapRc != AlreadyMapped {
        return 0;
      }
      var ver := ReadRegister(VersionRegister);
      mre := MaxRedirEntry(ver);
    }
  }
}
