/**
 * Per-processor descriptors and their register records (smp.c): the context
 * copy helpers, System V argument placement, smp_jmp, and descriptor linking
 * plus the INIT/SIPI order of init_smp.
 *
 * The descriptor and register record used by smp.c and idt.c are declared in
 * arch/smp.h, which is not part of this model; their fields are the ones the
 * two files use.  The positions of the `ARC_SMP_FLAGS_*` bits are taken from
 * the literal masks idt.c clears (bit 0 context write, bit 1 context save,
 * bit 2 timer rewrite); HOLD and INIT are assumed to be bits 3 and 4.
 */
module Smp {
  import opened Common
  import LocalApic

  const CtxWriteBit: bv32 := 0x1
  const CtxSaveBit: bv32 := 0x2
  const WTimerBit: bv32 := 0x4
  const HoldBit: bv32 := 0x8
  const InitBit: bv32 := 0x10

  /** The register record of a processor descriptor or a thread (`struct ARC_Registers` as smp.c and idt.c use it). */
  datatype Registers = Registers(
    rax: U64, rbx: U64, rcx: U64, rdx: U64, rsi: U64, rdi: U64, rsp: U64, rbp: U64,
    r8: U64, r9: U64, r10: U64, r11: U64, r12: U64, r13: U64, r14: U64, r15: U64,
    cs: U64, rip: U64, rflags: U64, ss: U64, cr3: U64)

  const ZeroRegisters: Registers := Registers(0, 0, 0, 0, 0, 0, 0, 0, 0, 0, 0, 0, 0, 0, 0, 0, 0, 0, 0, 0, 0)

  /** The twenty fields smp_context_write and smp_context_save copy, in their order; cr3 is not among them. */
  datatype Context = Context(
    rax: U64, rbx: U64, rcx: U64, rdx: U64, rsi: U64, rdi: U64, rsp: U64, rbp: U64,
    r8: U64, r9: U64, r10: U64, r11: U64, r12: U64, r13: U64, r14: U64, r15: U64,
    cs: U64, rip: U64, rflags: U64, ss: U64)

  /** The context fields of a register record. */
  function ContextFields(r: Registers): Context
  {
    Context(r.rax, r.rbx, r.rcx, r.rdx, r.rsi, r.rdi, r.rsp, r.rbp, r.r8, r.r9, r.r10, r.r11,
            r.r12, r.r13, r.r14, r.r15, r.cs, r.rip, r.rflags, r.ss)
  }

  /** The copied fields and cr3 make up the whole record. */
  lemma ContextAndCr3Determine(a: Registers, b: Registers)
    requires ContextFields(a) == ContextFields(b) && a.cr3 == b.cr3
    ensures a == b
  {
  }

  /** The copy both helpers perform: every context field from `from`, cr3 kept from `into`. */
  function CopyContext(into: Registers, from: Registers): (r: Registers)
    ensures ContextFields(r) == ContextFields(from) && r.cr3 == into.cr3
  {
    from.(cr3 := into.cr3)
  }

  /** smp_context_save after smp_context_write hands back exactly the written context fields. */
  lemma SaveAfterWrite(descriptor: Registers, written: Registers, out: Registers)
    ensures ContextFields(CopyContext(out, CopyContext(descriptor, written))) == ContextFields(written)
  {
  }

  /** A thread's saved context (`ARC_Thread.ctx`; the scheduler itself is not part of this model). */
  class Thread {
    var ctx: Registers

    constructor (ctx: Registers)
      ensures this.ctx == ctx
    {
      this.ctx := ctx;
    }
  }

  /** The System V AMD64 integer argument registers in order (ABI section 3.2.3): rdi, rsi, rdx, rcx, r8, r9. */
  function ArgRegisters(r: Registers): seq<U64>
  {
    [r.rdi, r.rsi, r.rdx, r.rcx, r.r8, r.r9]
  }

  /** Every field other than the six argument registers and rsp. */
  function OtherFields(r: Registers): seq<U64>
  {
    [r.rax, r.rbx, r.rbp, r.r10, r.r11, r.r12, r.r13, r.r14, r.r15, r.cs, r.rip, r.rflags, r.ss, r.cr3]
  }

  lemma FieldsDetermine(a: Registers, b: Registers)
    requires ArgRegisters(a) == ArgRegisters(b) && OtherFields(a) == OtherFields(b) && a.rsp == b.rsp
    ensures a == b
  {
    assert ArgRegisters(a)[0] == ArgRegisters(b)[0];
    assert OtherFields(a)[0] == OtherFields(b)[0];
  }

  /** The switch in smp_sysv_set_args: argument i goes to the i-th argument register and nowhere else. */
  function SetArg(r: Registers, i: nat, v: U64): (q: Registers)
    requires i < 6
    ensures ArgRegisters(q) == ArgRegisters(r)[i := v] && OtherFields(q) == OtherFields(r) && q.rsp == r.rsp
  {
    if i == 0 then r.(rdi := v)
    else if i == 1 then r.(rsi := v)
    else if i == 2 then r.(rdx := v)
    else if i == 3 then r.(rcx := v)
    else if i == 4 then r.(r8 := v)
    else r.(r9 := v)
  }

  /** min(argc, 6), and 0 when argc is negative: how many arguments go to registers. */
  function RegisterArgCount(argc: int): (n: nat)
    ensures n <= 6 && (argc <= 0 ==> n == 0) && (0 <= argc <= 6 ==> n == argc) && (argc >= 6 ==> n == 6)
  {
    if argc < 0 then 0 else if argc < 6 then argc else 6
  }

  /** delta: how many arguments go to the stack. */
  function StackArgCount(argc: int): (d: nat)
    ensures RegisterArgCount(argc) + d == (if argc < 0 then 0 else argc)
  {
    if argc <= 6 then 0 else argc - 6
  }

  /** rsp after the call: lowered by 8 bytes per stack argument, modulo 2^64. */
  function ArgsRsp(rsp: U64, argc: int): (r: U64)
    ensures argc <= 6 ==> r == rsp
  {
    (rsp - 8 * StackArgCount(argc)) % U64Modulus
  }

  /** Adding to a value reduced modulo 2^64 and then reducing again is reducing once. */
  lemma AddMod(x: int, y: int)
    ensures (x % U64Modulus + y) % U64Modulus == (x + y) % U64Modulus
  {
    var q := x / U64Modulus;
    assert x == q * U64Modulus + x % U64Modulus;
    assert x + y == (x % U64Modulus + y) + q * U64Modulus;
  }

  /** One 8-byte store to memory. */
  datatype Store = Store(address: U64, value: U64)

  /**
   * The stores of the stack loop.  Extra argument k (argument 6 + k) lands
   * 8 * (k + 1) bytes above the final rsp, which is where the ABI places
   * the k-th memory argument when the slot at rsp is the return address.
   */
  function StackStores(rsp: U64, args: seq<U64>, argc: int): (s: seq<Store>)
    requires argc <= |args|
    ensures |s| == StackArgCount(argc)
    ensures forall k :: 0 <= k < |s| ==> s[k].value == args[6 + k]
    ensures forall k :: 0 <= k < |s| ==> s[k].address == (ArgsRsp(rsp, argc) + 8 * (k + 1)) % U64Modulus
  {
    var delta := StackArgCount(argc);
    var s := seq(delta, k requires 0 <= k < delta => Store((rsp - (delta - 1 - k) * 8) % U64Modulus, args[6 + k]));
    assert forall k :: 0 <= k < delta ==> s[k].address == (ArgsRsp(rsp, argc) + 8 * (k + 1)) % U64Modulus by {
      forall k | 0 <= k < delta
        ensures s[k].address == (ArgsRsp(rsp, argc) + 8 * (k + 1)) % U64Modulus
      {
        AddMod(rsp - 8 * delta, 8 * (k + 1));
      }
    }
    s
  }

  /** The register file after smp_sysv_set_args. */
  function PlaceArgs(r: Registers, args: seq<U64>, argc: int): (q: Registers)
    requires argc <= |args|
    ensures ArgRegisters(q) == args[..RegisterArgCount(argc)] + ArgRegisters(r)[RegisterArgCount(argc)..]
    ensures OtherFields(q) == OtherFields(r) && q.rsp == ArgsRsp(r.rsp, argc)
  {
    var a := args[..RegisterArgCount(argc)] + ArgRegisters(r)[RegisterArgCount(argc)..];
    r.(rdi := a[0], rsi := a[1], rdx := a[2], rcx := a[3], r8 := a[4], r9 := a[5], rsp := ArgsRsp(r.rsp, argc))
  }

  /** The first loop of smp_sysv_set_args: arguments 0 .. min(argc, 6) - 1 into the argument registers. */
  method RegisterArgs(r: Registers, args: seq<U64>, argc: int) returns (regs: Registers)
    requires argc <= |args|
    ensures ArgRegisters(regs) == args[..RegisterArgCount(argc)] + ArgRegisters(r)[RegisterArgCount(argc)..]
    ensures OtherFields(regs) == OtherFields(r) && regs.rsp == r.rsp
  {
    regs := r;
    var i := 0;
    while i < RegisterArgCount(argc)
      invariant 0 <= i <= RegisterArgCount(argc)
      invariant ArgRegisters(regs) == args[..i] + ArgRegisters(r)[i..]
      invariant OtherFields(regs) == OtherFields(r) && regs.rsp == r.rsp
    {
      regs := SetArg(regs, i, args[i]);
      i := i + 1;
    }
  }

  /**
   * The second loop of smp_sysv_set_args, for argc > 6: i runs from
   * delta - 1 down to 0 and the next argument (va_arg continues at
   * argument 6) is stored at rsp - i * 8.
   */
  method StackArgs(rsp: U64, args: seq<U64>, argc: int) returns (stores: seq<Store>)
    requires 6 < argc <= |args|
    ensures stores == StackStores(rsp, args, argc)
  {
    var delta := argc - 6;
    var next := 6;
    stores := [];
    var i := delta - 1;
    while i >= 0
      invariant -1 <= i < delta && next == 6 + (delta - 1 - i) && |stores| == delta - 1 - i
      invariant forall k :: 0 <= k < |stores| ==> stores[k] == Store((rsp - (delta - 1 - k) * 8) % U64Modulus, args[6 + k])
    {
      stores := stores + [Store((rsp - i * 8) % U64Modulus, args[next])];
      next := next + 1;
      i := i - 1;
    }
  }

  /** `struct ARC_ProcessorDescriptor` as smp.c and idt.c use it. */
  class ProcessorDescriptor {
    var flags: bv32
    var registers: Registers
    var timerMode: bv8
    var timerTicks: bv32
    var lastThread: Thread?
    var currentThread: Thread?
    /** The physical address of the current process's page tables (the HHDM translation already applied). */
    var processTables: U64
    var next: ProcessorDescriptor?
    var acpiUid: bv32
    var acpiFlags: bv32

    /** An entry of the zero-initialised `Arc_ProcessorList`. */
    constructor ()
      ensures flags == 0 && registers == ZeroRegisters && timerMode == 0 && timerTicks == 0
      ensures lastThread == null && currentThread == null && processTables == 0 && next == null
      ensures acpiUid == 0 && acpiFlags == 0
    {
      flags, registers, timerMode, timerTicks := 0, ZeroRegisters, 0, 0;
      lastThread, currentThread, processTables, next := null, null, 0, null;
      acpiUid, acpiFlags := 0, 0;
    }

    /**
     * smp_sysv_set_args, with the variadic list as `args`: the first
     * min(argc, 6) arguments go to rdi, rsi, rdx, rcx, r8, r9; the rest are
     * stored on the stack below rsp, which then drops by 8 per stored
     * argument.  The stores are returned in the order they are made.
     */
    method SysvSetArgs(args: seq<U64>, argc: int) returns (rc: int, stores: seq<Store>)
      requires argc <= |args| && argc - 6 < 0x1000_0000
      modifies this
      ensures rc == 0 && registers == PlaceArgs(old(registers), args, argc)
      ensures stores == StackStores(old(registers.rsp), args, argc)
      ensures flags == old(flags) && timerMode == old(timerMode) && timerTicks == old(timerTicks)
      ensures lastThread == old(lastThread) && currentThread == old(currentThread)
      ensures processTables == old(processTables) && next == old(next)
      ensures acpiUid == old(acpiUid) && acpiFlags == old(acpiFlags)
    {
      ghost var r0 := registers;
      registers := RegisterArgs(registers, args, argc);
      stores := [];
      if argc <= 6 {
        FieldsDetermine(registers, PlaceArgs(r0, args, argc));
        return 0, stores;
      }
      var delta := argc - 6;
      stores := StackArgs(registers.rsp, args, argc);
      registers := registers.(rsp := (registers.rsp - delta * 8) % U64Modulus);
      FieldsDetermine(registers, PlaceArgs(r0, args, argc));
      rc := 0;
    }

    /**
     * smp_jmp: place the arguments, point rip at the function, then clear
     * HOLD and set CTXWRITE so that the next timer tick switches to it.
     */
    method Jmp(function_: U64, argc: int, args: seq<U64>) returns (rc: int, stores: seq<Store>)
      requires argc <= |args| && argc - 6 < 0x1000_0000
      modifies this
      ensures rc == 0 && registers == PlaceArgs(old(registers), args, argc).(rip := function_)
      ensures stores == StackStores(old(registers.rsp), args, argc)
      ensures flags & HoldBit == 0 && flags & CtxWriteBit == CtxWriteBit
      ensures flags & !(HoldBit | CtxWriteBit) == old(flags) & !(HoldBit | CtxWriteBit)
      ensures timerMode == old(timerMode) && timerTicks == old(timerTicks)
      ensures lastThread == old(lastThread) && currentThread == old(currentThread)
      ensures processTables == old(processTables) && next == old(next)
      ensures acpiUid == old(acpiUid) && acpiFlags == old(acpiFlags)
    {
      var placed;
      placed, stores := SysvSetArgs(args, argc);
      registers := registers.(rip := function_);
      flags := flags & !(1 << 3);
      flags := flags | (1 << 0);
      rc := 0;
    }
  }

  /**
   * smp_context_write, with a missing register block as None: 1 and no
   * change when either pointer is null; otherwise copy the context fields
   * into the descriptor, set CTXWRITE (other flag bits kept) and return 0.
   */
  method ContextWrite(processor: ProcessorDescriptor?, regs: Option<Registers>) returns (rc: int)
    modifies processor
    ensures processor == null || regs.None? ==> rc == 1
    ensures processor != null && regs.None? ==> unchanged(processor)
    ensures processor != null && regs.Some? ==>
      (rc == 0 && processor.registers == CopyContext(old(processor.registers), regs.value)
       && processor.flags == old(processor.flags) | CtxWriteBit)
    ensures processor != null && regs.Some? ==>
      (processor.timerMode == old(processor.timerMode) && processor.timerTicks == old(processor.timerTicks)
       && processor.lastThread == old(processor.lastThread) && processor.currentThread == old(processor.currentThread)
       && processor.processTables == old(processor.processTables) && processor.next == old(processor.next)
       && processor.acpiUid == old(processor.acpiUid) && processor.acpiFlags == old(processor.acpiFlags))
  {
    if processor == null || regs.None? {
      return 1;
    }
    processor.registers := CopyContext(processor.registers, regs.value);
    processor.flags := processor.flags | (1 << 0);
    rc := 0;
  }

  /**
   * smp_context_save, with the destination block passed in and returned:
   * 1 and the block unchanged when either pointer is null; otherwise the
   * block receives the descriptor's context fields.  The descriptor is
   * only read.
   */
  method ContextSave(processor: ProcessorDescriptor?, regs: Option<Registers>) returns (rc: int, result: Option<Registers>)
    ensures processor == null || regs.None? ==> rc == 1 && result == regs
    ensures processor != null && regs.Some? ==>
      (rc == 0 && result.Some? && ContextFields(result.value) == ContextFields(processor.registers)
       && result.value.cr3 == regs.value.cr3)
  {
    if processor == null || regs.None? {
      return 1, regs;
    }
    result := Some(CopyContext(regs.value, processor.registers));
    rc := 0;
  }

  /** `(uint32_t)lapic_get_id()` names this processor: it is the boot processor. */
  predicate IsBootProcessor(processor: nat, lapicId: int)
  {
    processor == lapicId % 0x1_0000_0000
  }

  /**
   * The ICR stores init_smp makes for an application processor: INIT
   * assert, INIT de-assert, and for an integrated APIC (version 0xA or
   * later) two STARTUP IPIs whose vector is the page number of the
   * trampoline.  The destination is the processor number truncated to a byte.
   */
  function StartupIpis(processor: nat, version: bv32, code: bv64): seq<LocalApic.Write>
  {
    var dest := (processor % 256) as bv8;
    var vector := ((code >> 12) & 0xFF) as bv8;
    LocalApic.IpiWrites(0, dest, LocalApic.Init | LocalApic.Assert)
      + LocalApic.IpiWrites(0, dest, LocalApic.Init | LocalApic.Deassert)
      + (if version >= 0xA then
           LocalApic.IpiWrites(vector, dest, LocalApic.Start | LocalApic.Assert)
             + LocalApic.IpiWrites(vector, dest, LocalApic.Start | LocalApic.Assert)
         else [])
  }

  /** The startup sequence decoded: which IPIs, in which order, with which level and vector. */
  lemma StartupSequence(processor: nat, version: bv32, code: bv64)
    ensures var s := StartupIpis(processor, version, code);
      |s| == (if version >= 0xA then 8 else 4)
      && (forall j :: 0 <= j < |s| && j % 2 == 0 ==> s[j].offset == LocalApic.Offset(LocalApic.IcrHighSlot))
      && (forall j :: 0 <= j < |s| && j % 2 == 1 ==> s[j].offset == LocalApic.Offset(LocalApic.IcrLowSlot))
      && s[1].value & LocalApic.DeliveryModeMask == LocalApic.Init && s[1].value & LocalApic.LevelMask == LocalApic.Assert
      && s[3].value & LocalApic.DeliveryModeMask == LocalApic.Init && s[3].value & LocalApic.LevelMask == LocalApic.Deassert
      && (version >= 0xA ==>
            s[5].value & LocalApic.DeliveryModeMask == LocalApic.Start && s[5].value & LocalApic.LevelMask == LocalApic.Assert
            && s[7].value & LocalApic.DeliveryModeMask == LocalApic.Start && s[7].value & LocalApic.LevelMask == LocalApic.Assert
            && s[5].value & 0xFF == ((code >> 12) & 0xFF) as bv32 && s[7].value & 0xFF == ((code >> 12) & 0xFF) as bv32)
  {
  }

  /** The IPI part of init_smp for an application processor; the delivery-status polls between IPIs are left out. */
  method SendStartup(lapic: LocalApic.LocalApic, processor: nat, version: bv32, code: bv64)
    modifies lapic
    ensures lapic.log == old(lapic.log) + StartupIpis(processor, version, code)
    ensures lapic.msr == old(lapic.msr) && lapic.spurious == old(lapic.spurious) && lapic.lvtTimer == old(lapic.lvtTimer)
    ensures lapic.initCount == old(lapic.initCount) && lapic.divConf == old(lapic.divConf) && lapic.eoi == old(lapic.eoi)
  {
    var dest := (processor % 256) as bv8;
    lapic.Ipi(0, dest, LocalApic.Init | LocalApic.Assert);
    lapic.Ipi(0, dest, LocalApic.Init | LocalApic.Deassert);
    if version >= 0xA {
      var vector := ((code >> 12) & 0xFF) as bv8;
      lapic.Ipi(vector, dest, LocalApic.Start | LocalApic.Assert);
      lapic.Ipi(vector, dest, LocalApic.Start | LocalApic.Assert);
    }
  }

  /** The global processor list and the bookkeeping init_smp keeps about it. */
  class ProcessorList {
    const list: array<ProcessorDescriptor>
    var lastLapic: nat
    var counter: nat
    var bootProcessor: ProcessorDescriptor?

    predicate Valid()
      reads this
    {
      0 < list.Length && lastLapic < list.Length && counter < 0x1_0000_0000
    }

    constructor (list: array<ProcessorDescriptor>)
      requires 0 < list.Length
      ensures Valid() && this.list == list && lastLapic == 0 && counter == 0 && bootProcessor == null
    {
      this.list := list;
      lastLapic, counter, bootProcessor := 0, 0, null;
    }

    /** The first lines of init_smp: record the ACPI ids and link the processor after the one registered last. */
    method Register(processor: nat, acpiUid: bv32, acpiFlags: bv32)
      requires Valid() && processor < list.Length
      modifies this, list[processor], list[lastLapic]
      ensures Valid() && lastLapic == processor && counter == old(counter) && bootProcessor == old(bootProcessor)
      ensures list[processor].acpiUid == acpiUid && list[processor].acpiFlags == acpiFlags
      ensures list[old(lastLapic)].next == list[processor]
      ensures list[processor].flags == old(list[processor].flags)
      ensures list[processor].registers == old(list[processor].registers)
    {
      var p := list[processor];
      p.acpiUid := acpiUid;
      p.acpiFlags := acpiFlags;
      list[lastLapic].next := p;
      lastLapic := processor;
    }

    /**
     * init_smp, with the lapic_get_id result, the low-memory trampoline page
     * and the local APIC as inputs.  The processor is linked after the one
     * registered last.  The boot processor is marked initialised and
     * recorded; any other processor is sent the startup IPIs.  Either way
     * the processor counter (a `uint32_t`) grows by one.
     */
    method InitSmp(processor: nat, acpiUid: bv32, acpiFlags: bv32, version: bv32, lapicId: int, code: bv64,
                   lapic: LocalApic.LocalApic) returns (rc: int)
      requires Valid() && processor < list.Length
      modifies this, list[processor], list[lastLapic], lapic
      ensures Valid() && rc == 0 && lastLapic == processor
      ensures list[processor].acpiUid == acpiUid && list[processor].acpiFlags == acpiFlags
      ensures list[old(lastLapic)].next == list[processor]
      ensures counter == (old(counter) + 1) % 0x1_0000_0000
      ensures IsBootProcessor(processor, lapicId) ==>
        bootProcessor == list[processor] && list[processor].flags == old(list[processor].flags) | InitBit
        && lapic.log == old(lapic.log)
      ensures !IsBootProcessor(processor, lapicId) ==>
        bootProcessor == old(bootProcessor) && list[processor].flags == old(list[processor].flags)
        && lapic.log == old(lapic.log) + StartupIpis(processor, version, code)
      ensures list[processor].registers == old(list[processor].registers)
      ensures lapic.msr == old(lapic.msr) && lapic.spurious == old(lapic.spurious) && lapic.lvtTimer == old(lapic.lvtTimer)
    {
      Register(processor, acpiUid, acpiFlags);
      if IsBootProcessor(processor, lapicId) {
        var p := list[processor];
        bootProcessor := p;
        p.flags := p.flags | (1 << 4);
      } else {
        SendStartup(lapic, processor, version, code);
      }
      counter := (counter + 1) % 0x1_0000_0000;
      rc := 0;
    }
  }
}
