/**
 * The 16-byte 64-bit IDT gate descriptor (`ARC_IDTEntry` in interrupt.h,
 * and the identical `struct idt_entry` in idt.c), following section 6.14.1
 * of the Intel SDM Vol. 3A, "64-Bit Mode IDT".
 */
module GateLayout {
  /** `ARC_IDTEntry`, field by field. */
  datatype IdtEntry = IdtEntry(offset1: bv16, segment: bv16, ist: bv8, attrs: bv8, offset2: bv16, offset3: bv32,
                               reserved: bv32)

  /** An entry the `memset` calls leave: all zero, so not present. */
  const NullGate := IdtEntry(0, 0, 0, 0, 0, 0, 0)

  /** Field widths in bytes, in declaration order, and the packed size. */
  const FieldWidths: seq<nat> := [2, 2, 1, 1, 2, 4, 4]
  const IdtEntrySize: nat := 16

  /** Byte offset of field `k` in the packed layout. */
  function FieldOffset(k: nat): nat
    requires k <= |FieldWidths|
  {
    if k == 0 then 0 else FieldOffset(k - 1) + FieldWidths[k - 1]
  }

  /** offset1 at 0, segment at 2, ist at 4, attrs at 5, offset2 at 6, offset3 at 8, reserved at 12; 16 bytes in all. */
  lemma EntryLayout()
    ensures FieldOffset(1) == 2 && FieldOffset(2) == 4 && FieldOffset(3) == 5 && FieldOffset(4) == 6
    ensures FieldOffset(5) == 8 && FieldOffset(6) == 12 && FieldOffset(7) == IdtEntrySize
  {
  }

  /** `attrs` 0x8E: present (bit 7), privilege level 0 (bits 5-6), type 0xE, a 64-bit interrupt gate. */
  const InterruptGateAttrs: bv8 := 0x8E

  lemma InterruptGateAttrsDecode()
    ensures (InterruptGateAttrs >> 7) & 1 == 1 && (InterruptGateAttrs >> 5) & 3 == 0 && InterruptGateAttrs & 0xF == 0xE
  {
  }

  /** The handler address the three offset fields hold. */
  function GateOffset(e: IdtEntry): bv64
  {
    e.offset1 as bv64 | ((e.offset2 as bv64) << 16) | ((e.offset3 as bv64) << 32)
  }

  /** A gate for a handler at `offset`: the offset split 16/16/32 bits, reserved 0. */
  function Gate(offset: bv64, segment: bv16, attrs: bv8, ist: bv8): (e: IdtEntry)
    ensures GateOffset(e) == offset && e.reserved == 0
    ensures e.segment == segment && e.attrs == attrs && e.ist == ist
  {
    IdtEntry((offset & 0xFFFF) as bv16, segment, ist, attrs, ((offset >> 16) & 0xFFFF) as bv16,
             ((offset >> 32) & 0xFFFF_FFFF) as bv32, 0)
  }
}
