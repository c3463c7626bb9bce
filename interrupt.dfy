/**
 * Run-time IDT management (interrupt.c): installing one gate, registering
 * a handler under a vector, and building a zeroed table of a given size.
 */
module Interrupt {
  import opened Common
  import opened GateLayout

  /** `KERNEL_CS` and `USER_CS`. */
  const KernelCs: bv16 := 0x08
  const UserCs: bv16 := 0x18

  /** Vectors interrupt_set accepts: `number < 256`. */
  const Vectors: nat := 256

  /** Fewest entries init_dynamic_interrupts builds: the 32 exception vectors. */
  const MinEntries: int := 32

  /** `ARC_IDTRegister` together with the entries its base points at. */
  class IdtRegister {
    var limit: U16
    var base: bv64
    const entries: array<IdtEntry>

    constructor (limit: U16, base: bv64, entries: array<IdtEntry>)
      ensures this.limit == limit && this.base == base && this.entries == entries
    {
      this.limit := limit;
      this.base := base;
      this.entries := entries;
    }
  }

  /**
   * install_idt_gate: entry `i` becomes the gate for `offset`; no other
   * entry changes.  The C parameter `ist` is an `int` stored into 8 bits;
   * every caller passes 0, 1 or a `uint8_t`, so it is taken as a byte here.
   */
  method InstallIdtGate(entries: array<IdtEntry>, i: nat, offset: bv64, segment: bv16, attrs: bv8, ist: bv8)
    requires i < entries.Length
    modifies entries
    ensures entries[..] == old(entries[..])[i := Gate(offset, segment, attrs, ist)]
  {
    entries[i] := Gate(offset, segment, attrs, ist);
  }

  /**
   * The entry interrupt_set installs for a handler at `handler` (0 is
   * NULL): a zeroed entry, or a gate whose segment and ist depend on
   * whether the handler is for the kernel.
   */
  function HandlerEntry(handler: bv64, kernel: bool): (e: IdtEntry)
    ensures handler == 0 ==> e == NullGate
    ensures handler != 0 ==> GateOffset(e) == handler && e.attrs == InterruptGateAttrs && e.reserved == 0
    ensures handler != 0 && kernel ==> e.segment == KernelCs && e.ist == 1
    ensures handler != 0 && !kernel ==> e.segment == UserCs && e.ist == 0
  {
    if handler == 0 then NullGate
    else Gate(handler, if kernel then KernelCs else UserCs, InterruptGateAttrs, 1 - if kernel then 0 else 1)
  }

  /**
   * interrupt_set: -1 for a vector of 256 or more, with nothing changed;
   * otherwise entry `number` of the table `handle` names (the loaded one,
   * `loaded`, when `handle` is null) becomes HandlerEntry and the result is 0.
   */
  method InterruptSet(handle: IdtRegister?, loaded: IdtRegister, number: nat, handler: bv64, kernel: bool)
    returns (rc: int)
    requires number < Vectors ==> number < (if handle != null then handle else loaded).entries.Length
    modifies (if handle != null then handle else loaded).entries
    ensures var table := (if handle != null then handle else loaded).entries;
            number >= Vectors ==> rc == -1 && table[..] == old(table[..])
    ensures var table := (if handle != null then handle else loaded).entries;
            number < Vectors ==> rc == 0 && table[..] == old(table[..])[number := HandlerEntry(handler, kernel)]
  {
    if number >= 256 {
      return -1;
    }
    var reg := handle;
    if reg == null {
      reg := loaded;
    }
    var entries := reg.entries;
    if handler == 0 {
      entries[number] := NullGate;
    } else {
      InstallIdtGate(entries, number, handler, if kernel then KernelCs else UserCs, InterruptGateAttrs,
                     1 - if kernel then 0 else 1);
    }
    rc := 0;
  }

  /** `sizeof(ARC_IDTEntry) * count - 1` stored in the 16-bit limit. */
  function DynamicLimit(count: int): (limit: U16)
    requires count >= MinEntries
    ensures limit < 0x1_0000 && (limit - (IdtEntrySize * count - 1)) % 0x1_0000 == 0
  {
    (IdtEntrySize * count - 1) % 0x1_0000
  }

  /**
   * init_dynamic_interrupts: null when `count < 32` or either allocation
   * fails (`regAlloc` and `entriesAlloc` are the allocator's answers, None
   * for NULL); if only the entries allocation fails the register block is
   * freed (`freed`).  Otherwise a register whose base is the entries'
   * address, whose limit is DynamicLimit and whose `count` entries are zero.
   */
  method InitDynamicInterrupts(count: int, regAlloc: Option<bv64>, entriesAlloc: Option<bv64>)
    returns (reg: IdtRegister?, freed: Option<bv64>)
    ensures count < MinEntries || regAlloc == None || entriesAlloc == None <==> reg == null
    ensures count >= MinEntries && regAlloc != None && entriesAlloc == None <==> freed != None
    ensures freed != None ==> freed == regAlloc
    ensures reg != null ==> fresh(reg) && fresh(reg.entries) && reg.entries.Length == count
    ensures reg != null ==> reg.entries[..] == seq(count, _ => NullGate)
    ensures reg != null ==> reg.base == entriesAlloc.value && reg.limit == DynamicLimit(count)
  {
    freed := None;
    if count < 32 {
      return null, freed;
    }
    if regAlloc == None {
      return null, freed;
    }
    if entriesAlloc == None {
      freed := regAlloc;
      return null, freed;
    }
    var entries := new IdtEntry[count](_ => NullGate);
    reg := new IdtRegister(DynamicLimit(count), entriesAlloc.value, entries);
  }

  /** A 256-vector table has limit 0xFFF, the last byte of its 4096. */
  lemma FullTableLimit()
    ensures DynamicLimit(256) == 0xFFF
  {
  }

}
