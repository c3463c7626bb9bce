/**
 * The boot IDT and its handlers (idt.c): the 51 gates init_idt installs,
 * the error-code preamble of the exception handlers, which handlers return
 * and signal EOI, and the vector-32 timer handler that saves, exchanges
 * and rotates contexts through the processor descriptor.
 *
 * The handler receives the register block the stub saved; its rsp field
 * points at the frame the processor pushed (`struct interrupt_frame`).
 * Both are fields of a `Trap`.  `lapic_get_id`, `smp_get_proc_desc`,
 * `sched_tick` and `sched_get_current_thread` are inputs.
 */
module Idt {
  import opened Common
  import opened GateLayout
  import LocalApic
  import Smp
  import Pager
  import GenericIsrs

  /** `struct interrupt_frame`: rip, cs, rflags, rsp, ss; 40 bytes. */
  datatype Frame = Frame(rip: U64, cs: U64, rflags: U64, rsp: U64, ss: U64)

  const FrameSize: nat := 40

  /** The register block a handler is given and the frame its rsp points at. */
  class Trap {
    var regs: Smp.Registers
    var frame: Frame

    constructor (regs: Smp.Registers, frame: Frame)
      ensures this.regs == regs && this.frame == frame
    {
      this.regs := regs;
      this.frame := frame;
    }

    /**
     * GENERIC_EXCEPTION_PREAMBLE, with `top` the word at regs->rsp: for the
     * vectors in its switch, take that word as the error code and step rsp
     * past it; otherwise the error code is 0.  For every exception vector
     * this agrees with the processor (Intel SDM Vol. 3A, Table 6-1): the
     * code is the word the processor pushed exactly when it pushes one,
     * and rsp ends at the pushed frame.
     */
    method ExceptionPreamble(vector: nat, top: U64) returns (errorCode: U64)
      requires vector < 32
      modifies this
      ensures errorCode == (if SdmPushesErrorCode(vector) then top else 0)
      ensures regs == old(regs).(rsp := FrameAddress(vector, old(regs.rsp))) && frame == old(frame)
    {
      errorCode := 0;
      if vector in {8, 10, 11, 12, 13, 14, 17, 21} {
        errorCode := top;
        regs := regs.(rsp := (regs.rsp + 8) % U64Modulus);
      }
    }
  }

  /** Exceptions for which the processor pushes an error code: #DF (8), #TS, #NP, #SS, #GP, #PF (10-14), #AC (17), #CP (21). */
  predicate SdmPushesErrorCode(vector: nat)
  {
    vector == 8 || (10 <= vector <= 14) || vector == 17 || vector == 21
  }

  /** Where the pushed frame starts, given the stack pointer after the processor's pushes. */
  function FrameAddress(vector: nat, sp: U64): U64
  {
    if SdmPushesErrorCode(vector) then (sp + 8) % U64Modulus else sp
  }

  /** The context fields of a trapped state, in `ContextFields` order: registers from the block, rsp, cs, rip, rflags, ss from the frame. */
  function TrappedFields(regs: Smp.Registers, frame: Frame): Smp.Context
  {
    Smp.Context(regs.rax, regs.rbx, regs.rcx, regs.rdx, regs.rsi, regs.rdi, frame.rsp, regs.rbp, regs.r8, regs.r9,
                regs.r10, regs.r11, regs.r12, regs.r13, regs.r14, regs.r15, frame.cs, frame.rip, frame.rflags, frame.ss)
  }

  /**
   * The copy of a trapped state into a register record (idt.c:489-509 and
   * 520-540): every context field from the trap, cr3 kept from `into`.
   * `regs->rip` is copied first and then overwritten by the frame's rip.
   */
  function Captured(into: Smp.Registers, regs: Smp.Registers, frame: Frame): (r: Smp.Registers)
    ensures Smp.ContextFields(r) == TrappedFields(regs, frame) && r.cr3 == into.cr3
  {
    into.(rax := regs.rax, rbx := regs.rbx, rcx := regs.rcx, rdx := regs.rdx, rsi := regs.rsi, rdi := regs.rdi,
          rsp := frame.rsp, rbp := regs.rbp, r8 := regs.r8, r9 := regs.r9, r10 := regs.r10, r11 := regs.r11,
          r12 := regs.r12, r13 := regs.r13, r14 := regs.r14, r15 := regs.r15, cs := frame.cs, rip := frame.rip,
          rflags := frame.rflags, ss := frame.ss)
  }

  /** The register block after switching to `source` (idt.c:543-563): registers and rip from `source`; rsp (the frame pointer), cs, rflags, ss and cr3 stay. */
  function InstallRegs(regs: Smp.Registers, source: Smp.Registers): (r: Smp.Registers)
    ensures r.rip == source.rip && r.rsp == regs.rsp && r.cr3 == regs.cr3
    ensures r.cs == regs.cs && r.rflags == regs.rflags && r.ss == regs.ss
  {
    regs.(rax := source.rax, rbx := source.rbx, rcx := source.rcx, rdx := source.rdx, rsi := source.rsi,
          rdi := source.rdi, rbp := source.rbp, rip := source.rip, r8 := source.r8, r9 := source.r9,
          r10 := source.r10, r11 := source.r11, r12 := source.r12, r13 := source.r13, r14 := source.r14,
          r15 := source.r15)
  }

  /** The frame after switching to `source`. */
  function InstallFrame(source: Smp.Registers): (f: Frame)
    ensures f.rip == source.rip && f.cs == source.cs && f.rflags == source.rflags && f.rsp == source.rsp
    ensures f.ss == source.ss
  {
    Frame(source.rip, source.cs, source.rflags, source.rsp, source.ss)
  }

  /** Switching to `source` makes the trapped state, as the return will see it, exactly `source`'s context. */
  lemma InstallThenCapture(regs: Smp.Registers, source: Smp.Registers, into: Smp.Registers)
    ensures TrappedFields(InstallRegs(regs, source), InstallFrame(source)) == Smp.ContextFields(source)
    ensures Smp.ContextFields(Captured(into, InstallRegs(regs, source), InstallFrame(source))) == Smp.ContextFields(source)
  {
  }

  /** Switching to a capture of the trapped state leaves the frame as it was: only regs.rip takes the frame's rip. */
  lemma CaptureThenInstall(regs: Smp.Registers, frame: Frame, into: Smp.Registers)
    ensures InstallFrame(Captured(into, regs, frame)) == frame
    ensures InstallRegs(regs, Captured(into, regs, frame)) == regs.(rip := frame.rip)
  {
  }

  /**
   * What handler v of this table does: 0-31 dump the registers and hang
   * without EOI (unlike generic_isrs.c, even the breakpoint); 32-50 signal
   * EOI and return.
   */
  function HandlerOutcome(vector: nat): (o: GenericIsrs.Outcome)
    requires vector <= 50
    ensures vector < 32 <==> !o.eoi
    ensures vector < 32 <==> !o.resumes
  {
    if vector < 32 then GenericIsrs.Outcome(false, false) else GenericIsrs.Outcome(true, true)
  }

  /** The handlers 33-50: EOI and nothing else. */
  method IrqHandler(lapic: LocalApic.LocalApic) returns (rc: int)
    modifies lapic
    ensures rc == 0 && lapic.log == old(lapic.log) + [LocalApic.Write(LocalApic.Offset(LocalApic.EoiSlot), 0)]
    ensures lapic.msr == old(lapic.msr) && lapic.spurious == old(lapic.spurious) && lapic.lvtTimer == old(lapic.lvtTimer)
    ensures lapic.initCount == old(lapic.initCount) && lapic.icrLow == old(lapic.icrLow)
  {
    lapic.Eoi();
    rc := 0;
  }

  /** The static `idt_entries` table and the `idtr` that describes it. */
  class IdtTable {
    const entries: array<IdtEntry>
    const address: bv64
    var limit: U16
    var base: bv64

    constructor (address: bv64)
      ensures entries.Length == 256 && fresh(entries) && this.address == address
      ensures forall v :: 0 <= v < 256 ==> entries[v] == NullGate
      ensures limit == 0 && base == 0
    {
      this.address := address;
      entries := new IdtEntry[256](_ => NullGate);
      limit, base := 0, 0;
    }

    /** idt.c's install_idt_gate: like interrupt.c's, but ist is always 1. */
    method InstallIdtGate(i: nat, offset: bv64, segment: bv16, attrs: bv8)
      requires i < entries.Length
      modifies entries
      ensures entries[..] == old(entries[..])[i := Gate(offset, segment, attrs, 1)]
      ensures GateOffset(entries[i]) == offset && entries[i].ist == 1 && entries[i].reserved == 0
    {
      entries[i] := Gate(offset, segment, attrs, 1);
    }

    /**
     * init_idt, with the addresses of `_idt_stub_0` .. `_idt_stub_50` as
     * `stubs`: gates 0-50 to their stubs with selector 0x08 and attributes
     * 0x8E, the rest left as they were; the IDTR limit is
     * sizeof(idt_entries) * 16 - 1 = 0xFFFF and its base the table address.
     */
    method InitIdt(stubs: seq<bv64>)
      requires |stubs| == 51 && entries.Length == 256
      modifies this, entries
      ensures forall v :: 0 <= v < 51 ==> entries[v] == Gate(stubs[v], 0x08, InterruptGateAttrs, 1)
      ensures forall v :: 51 <= v < 256 ==> entries[v] == old(entries[v])
      ensures limit == 0xFFFF && base == address
    {
      var v := 0;
      while v < 51
        invariant 0 <= v <= 51
        invariant forall u :: 0 <= u < v ==> entries[u] == Gate(stubs[u], 0x08, InterruptGateAttrs, 1)
        invariant forall u :: v <= u < 256 ==> entries[u] == old(entries[u])
      {
        InstallIdtGate(v, stubs[v], 0x08, InterruptGateAttrs);
        v := v + 1;
      }
      limit := (256 * IdtEntrySize * 16 - 1) % 0x1_0000;
      base := address;
    }
  }

  /** The loaded limit reaches past the last gate: every vector's 16 bytes lie within it. */
  lemma IdtLimitCoversTable()
    ensures 256 * IdtEntrySize - 1 <= (256 * IdtEntrySize * 16 - 1) % 0x1_0000
  {
  }

  /** The CTXSAVE step: copy the trapped state into the descriptor and clear the flag. */
  method SaveTrapped(processor: Smp.ProcessorDescriptor, trap: Trap)
    modifies processor
    ensures processor.registers ==
      (if old(processor.flags) & Smp.CtxSaveBit != 0 then Captured(old(processor.registers), trap.regs, trap.frame)
       else old(processor.registers))
    ensures processor.flags == old(processor.flags) & !Smp.CtxSaveBit
    ensures processor.lastThread == old(processor.lastThread) && processor.currentThread == old(processor.currentThread)
    ensures processor.timerMode == old(processor.timerMode) && processor.timerTicks == old(processor.timerTicks)
    ensures processor.processTables == old(processor.processTables)
  {
    if (processor.flags >> 1) & 1 == 1 {
      processor.registers := Captured(processor.registers, trap.regs, trap.frame);
      processor.flags := processor.flags & !(1 << 1);
    }
  }

  /**
   * The `ctx_switch` block: the trap receives `source`'s context, the
   * descriptor receives the trapped one through smp_context_write, and
   * CTXWRITE ends clear.
   */
  method Exchange(processor: Smp.ProcessorDescriptor, trap: Trap, source: Smp.Registers)
    modifies processor, trap
    ensures TrappedFields(trap.regs, trap.frame) == Smp.ContextFields(source)
    ensures trap.regs == InstallRegs(old(trap.regs), source) && trap.frame == InstallFrame(source)
    ensures Smp.ContextFields(processor.registers) == TrappedFields(old(trap.regs), old(trap.frame))
    ensures processor.registers.cr3 == old(processor.registers.cr3)
    ensures processor.flags == old(processor.flags) & !Smp.CtxWriteBit
    ensures processor.lastThread == old(processor.lastThread) && processor.currentThread == old(processor.currentThread)
    ensures processor.timerMode == old(processor.timerMode) && processor.timerTicks == old(processor.timerTicks)
    ensures processor.processTables == old(processor.processTables)
  {
    var saved := Captured(Smp.ZeroRegisters, trap.regs, trap.frame);
    trap.regs := InstallRegs(trap.regs, source);
    trap.frame := InstallFrame(source);
    var rc := Smp.ContextWrite(processor, Some(saved));
    processor.flags := processor.flags & !1;
  }

  /**
   * The scheduler step before the switch: the previous thread's context is
   * saved from the descriptor, cr3 is pointed at the current process's
   * tables, and the threads rotate.  Returns the context to switch to.
   */
  method Rotate(processor: Smp.ProcessorDescriptor, trap: Trap, thread: Smp.Thread) returns (source: Smp.Registers)
    modifies processor, trap, processor.lastThread
    ensures source == thread.ctx
    ensures old(processor.lastThread) != null ==>
      Smp.ContextFields(old(processor.lastThread).ctx) == Smp.ContextFields(processor.registers)
      && old(processor.lastThread).ctx.cr3 == old(processor.lastThread.ctx.cr3)
    ensures processor.lastThread == old(processor.currentThread) && processor.currentThread == thread
    ensures trap.regs == old(trap.regs).(cr3 := processor.processTables) && trap.frame == old(trap.frame)
    ensures processor.registers == old(processor.registers) && processor.flags == old(processor.flags)
    ensures processor.timerMode == old(processor.timerMode) && processor.timerTicks == old(processor.timerTicks)
    ensures processor.processTables == old(processor.processTables)
  {
    var last := processor.lastThread;
    if last != null {
      var rc, saved := Smp.ContextSave(processor, Some(last.ctx));
      last.ctx := saved.value;
    }
    trap.regs := trap.regs.(cr3 := processor.processTables);
    processor.lastThread := processor.currentThread;
    processor.currentThread := thread;
    source := thread.ctx;
  }

  /** The LAPIC stores of the timer re-arm: a one-shot refresh, then for WTIMER a new LVT entry and count. */
  function RearmWrites(rewrite: bool, mode: bv8, ticks: bv32): seq<LocalApic.Write>
  {
    (if mode == LocalApic.OneShot then [LocalApic.Write(LocalApic.Offset(LocalApic.InitCountSlot), ticks)] else [])
      + (if rewrite then
           [LocalApic.Write(LocalApic.Offset(LocalApic.LvtTimerSlot), LocalApic.LvtTimer(32, mode)),
            LocalApic.Write(LocalApic.Offset(LocalApic.InitCountSlot), ticks)]
         else [])
  }

  /** The timer re-arm at the end of the vector-32 handler; WTIMER ends clear. */
  method RearmTimer(processor: Smp.ProcessorDescriptor, lapic: LocalApic.LocalApic)
    modifies processor, lapic
    ensures lapic.log == old(lapic.log) + RearmWrites(old(processor.flags) & Smp.WTimerBit != 0, processor.timerMode, processor.timerTicks)
    ensures old(processor.flags) & Smp.WTimerBit != 0 ==>
      lapic.lvtTimer == LocalApic.LvtTimer(32, processor.timerMode) && lapic.initCount == processor.timerTicks
    ensures old(processor.flags) & Smp.WTimerBit == 0 ==>
      lapic.lvtTimer == old(lapic.lvtTimer)
      && lapic.initCount == (if processor.timerMode == LocalApic.OneShot then processor.timerTicks else old(lapic.initCount))
    ensures processor.flags == old(processor.flags) & !Smp.WTimerBit
    ensures processor.registers == old(processor.registers) && processor.timerMode == old(processor.timerMode)
    ensures processor.timerTicks == old(processor.timerTicks) && processor.processTables == old(processor.processTables)
    ensures processor.lastThread == old(processor.lastThread) && processor.currentThread == old(processor.currentThread)
  {
    ghost var log0 := lapic.log;
    ghost var writes := RearmWrites(processor.flags & Smp.WTimerBit != 0, processor.timerMode, processor.timerTicks);
    if processor.timerMode == LocalApic.OneShot {
      lapic.RefreshTimer(processor.timerTicks);
      RewriteTimer(processor, lapic);
      assert lapic.log == log0 + writes;
    } else {
      RewriteTimer(processor, lapic);
      assert lapic.log == log0 + writes;
    }
  }

  /** The WTIMER part of the re-arm: program the LVT entry and the count again, then clear the flag. */
  method RewriteTimer(processor: Smp.ProcessorDescriptor, lapic: LocalApic.LocalApic)
    modifies processor, lapic
    ensures old(processor.flags) & Smp.WTimerBit == 0 ==> lapic.log == old(lapic.log)
    ensures old(processor.flags) & Smp.WTimerBit != 0 ==>
      lapic.log == old(lapic.log) + [LocalApic.Write(LocalApic.Offset(LocalApic.LvtTimerSlot), LocalApic.LvtTimer(32, processor.timerMode)),
                                     LocalApic.Write(LocalApic.Offset(LocalApic.InitCountSlot), processor.timerTicks)]
      && lapic.lvtTimer == LocalApic.LvtTimer(32, processor.timerMode) && lapic.initCount == processor.timerTicks
    ensures old(processor.flags) & Smp.WTimerBit == 0 ==>
      lapic.lvtTimer == old(lapic.lvtTimer) && lapic.initCount == old(lapic.initCount)
    ensures processor.flags == old(processor.flags) & !Smp.WTimerBit
    ensures processor.registers == old(processor.registers) && processor.timerMode == old(processor.timerMode)
    ensures processor.timerTicks == old(processor.timerTicks) && processor.processTables == old(processor.processTables)
    ensures processor.lastThread == old(processor.lastThread) && processor.currentThread == old(processor.currentThread)
  {
    if (processor.flags >> 2) & 1 == 1 {
      lapic.SetupTimer(32, processor.timerMode);
      lapic.RefreshTimer(processor.timerTicks);
      processor.flags := processor.flags & !(1 << 2);
    }
  }

  /** Clearing CTXSAVE keeps the CTXWRITE test; clearing CTXWRITE afterwards, or finding it clear, clears both. */
  lemma SwitchFlags(f: bv32)
    ensures ((f & !Smp.CtxSaveBit) & 1 == 1) == (f & Smp.CtxWriteBit != 0)
    ensures (f & !Smp.CtxSaveBit) & !Smp.CtxWriteBit == f & !(Smp.CtxSaveBit | Smp.CtxWriteBit)
    ensures f & Smp.CtxWriteBit == 0 ==> f & !Smp.CtxSaveBit == f & !(Smp.CtxSaveBit | Smp.CtxWriteBit)
  {
  }

  /** Clearing CTXWRITE when it is already clear changes nothing. */
  lemma ClearedBitStays(f: bv32)
    ensures f & 1 != 1 ==> f & Smp.CtxWriteBit == 0
    ensures f & Smp.CtxWriteBit == 0 ==> f & !Smp.CtxWriteBit == f
  {
  }

  /** The descriptor's registers once the CTXSAVE step has run. */
  function AfterSave(flags: bv32, registers: Smp.Registers, regs: Smp.Registers, frame: Frame): Smp.Registers
  {
    if flags & Smp.CtxSaveBit != 0 then Captured(registers, regs, frame) else registers
  }

  /** The thread the scheduler hands over: sched_tick's, or failing that sched_get_current_thread's. */
  function NextThread(tick: Smp.Thread?, current: Smp.Thread?): Smp.Thread?
  {
    if tick != null then tick else current
  }

  /**
   * idt.c:488-587: the CTXSAVE step, then either the requested context
   * write (the descriptor's registers go in, the trapped state comes out)
   * or, when the scheduler has a thread, the save-rotate-switch; with no
   * thread nothing more happens.  CTXSAVE and CTXWRITE end clear.
   */
  method Switch(processor: Smp.ProcessorDescriptor, trap: Trap, tick: Smp.Thread?, current: Smp.Thread?)
    modifies processor, trap, processor.lastThread
    ensures processor.flags == old(processor.flags) & !(Smp.CtxSaveBit | Smp.CtxWriteBit)
    ensures processor.timerMode == old(processor.timerMode) && processor.timerTicks == old(processor.timerTicks)
    ensures processor.processTables == old(processor.processTables)
    ensures old(processor.flags) & Smp.CtxWriteBit != 0 ==>
      TrappedFields(trap.regs, trap.frame)
        == Smp.ContextFields(AfterSave(old(processor.flags), old(processor.registers), old(trap.regs), old(trap.frame)))
      && trap.regs.cr3 == old(trap.regs.cr3)
      && Smp.ContextFields(processor.registers) == TrappedFields(old(trap.regs), old(trap.frame))
      && processor.lastThread == old(processor.lastThread) && processor.currentThread == old(processor.currentThread)
    ensures old(processor.flags) & Smp.CtxWriteBit == 0 && NextThread(tick, current) != null ==>
      processor.lastThread == old(processor.currentThread) && processor.currentThread == NextThread(tick, current)
      && trap.regs.cr3 == processor.processTables
      && TrappedFields(trap.regs, trap.frame) == Smp.ContextFields(NextThread(tick, current).ctx)
      && Smp.ContextFields(processor.registers) == TrappedFields(old(trap.regs), old(trap.frame))
      && (old(processor.lastThread) != null ==>
            Smp.ContextFields(old(processor.lastThread).ctx)
              == Smp.ContextFields(AfterSave(old(processor.flags), old(processor.registers), old(trap.regs), old(trap.frame))))
    ensures old(processor.flags) & Smp.CtxWriteBit == 0 && NextThread(tick, current) == null ==>
      trap.regs == old(trap.regs) && trap.frame == old(trap.frame)
      && processor.registers == AfterSave(old(processor.flags), old(processor.registers), old(trap.regs), old(trap.frame))
      && processor.lastThread == old(processor.lastThread) && processor.currentThread == old(processor.currentThread)
  {
    SwitchFlags(processor.flags);
    SaveTrapped(processor, trap);
    Dispatch(processor, trap, tick, current);
  }

  /** After the CTXSAVE step: the requested context write, or else the scheduler's switch; CTXWRITE ends clear. */
  method Dispatch(processor: Smp.ProcessorDescriptor, trap: Trap, tick: Smp.Thread?, current: Smp.Thread?)
    modifies processor, trap, processor.lastThread
    ensures processor.flags == old(processor.flags) & !Smp.CtxWriteBit
    ensures processor.timerMode == old(processor.timerMode) && processor.timerTicks == old(processor.timerTicks)
    ensures processor.processTables == old(processor.processTables)
    ensures old(processor.flags) & Smp.CtxWriteBit != 0 ==>
      TrappedFields(trap.regs, trap.frame) == Smp.ContextFields(old(processor.registers))
      && trap.regs.cr3 == old(trap.regs.cr3)
      && Smp.ContextFields(processor.registers) == TrappedFields(old(trap.regs), old(trap.frame))
      && processor.lastThread == old(processor.lastThread) && processor.currentThread == old(processor.currentThread)
    ensures old(processor.flags) & Smp.CtxWriteBit == 0 && NextThread(tick, current) != null ==>
      processor.lastThread == old(processor.currentThread) && processor.currentThread == NextThread(tick, current)
      && trap.regs.cr3 == processor.processTables
      && TrappedFields(trap.regs, trap.frame) == Smp.ContextFields(NextThread(tick, current).ctx)
      && Smp.ContextFields(processor.registers) == TrappedFields(old(trap.regs), old(trap.frame))
      && (old(processor.lastThread) != null ==>
            Smp.ContextFields(old(processor.lastThread).ctx) == Smp.ContextFields(old(processor.registers)))
    ensures old(processor.flags) & Smp.CtxWriteBit == 0 && NextThread(tick, current) == null ==>
      trap.regs == old(trap.regs) && trap.frame == old(trap.frame) && processor.registers == old(processor.registers)
      && processor.lastThread == old(processor.lastThread) && processor.currentThread == old(processor.currentThread)
  {
    if processor.flags & 1 == 1 {
      Exchange(processor, trap, processor.registers);
    } else {
      ClearedBitStays(processor.flags);
      Schedule(processor, trap, tick, current);
    }
  }

  /** With no context write pending: save, rotate and switch to the scheduler's thread, if it has one. */
  method Schedule(processor: Smp.ProcessorDescriptor, trap: Trap, tick: Smp.Thread?, current: Smp.Thread?)
    requires processor.flags & Smp.CtxWriteBit == 0
    modifies processor, trap, processor.lastThread
    ensures processor.flags == old(processor.flags) & !Smp.CtxWriteBit
    ensures processor.timerMode == old(processor.timerMode) && processor.timerTicks == old(processor.timerTicks)
    ensures processor.processTables == old(processor.processTables)
    ensures NextThread(tick, current) != null ==>
      processor.lastThread == old(processor.currentThread) && processor.currentThread == NextThread(tick, current)
      && trap.regs.cr3 == processor.processTables
      && TrappedFields(trap.regs, trap.frame) == Smp.ContextFields(NextThread(tick, current).ctx)
      && Smp.ContextFields(processor.registers) == TrappedFields(old(trap.regs), old(trap.frame))
      && (old(processor.lastThread) != null ==>
            Smp.ContextFields(old(processor.lastThread).ctx) == Smp.ContextFields(old(processor.registers)))
    ensures NextThread(tick, current) == null ==>
      trap.regs == old(trap.regs) && trap.frame == old(trap.frame) && processor.registers == old(processor.registers)
      && processor.lastThread == old(processor.lastThread) && processor.currentThread == old(processor.currentThread)
  {
    var thread := tick;
    if thread == null {
      thread := current;
    }
    if thread != null {
      var source := Rotate(processor, trap, thread);
      Exchange(processor, trap, source);
    } else {
      ClearedBitStays(processor.flags);
    }
  }

  /**
   * The vector-32 (timer) handler.  With no local APIC id it only signals
   * EOI.  Otherwise it switches to the kernel's page tables, runs the
   * context step, re-arms the timer and signals EOI; CTXSAVE, CTXWRITE and
   * WTIMER all end clear.
   */
  method TimerTick(processorId: int, processor: Smp.ProcessorDescriptor, trap: Trap, lapic: LocalApic.LocalApic,
                   pager: Pager.PageManager, tick: Smp.Thread?, current: Smp.Thread?) returns (rc: int)
    modifies processor, trap, lapic, pager, processor.lastThread
    ensures rc == 0
    ensures processorId == -1 ==>
      lapic.log == old(lapic.log) + [LocalApic.Write(LocalApic.Offset(LocalApic.EoiSlot), 0)]
      && unchanged(processor) && unchanged(trap) && unchanged(pager)
    ensures processorId != -1 ==>
      pager.cr3 == pager.kernelPageTables
      && processor.flags == old(processor.flags) & !(Smp.CtxSaveBit | Smp.CtxWriteBit | Smp.WTimerBit)
      && lapic.log == old(lapic.log)
           + RearmWrites(old(processor.flags) & Smp.WTimerBit != 0, processor.timerMode, processor.timerTicks)
           + [LocalApic.Write(LocalApic.Offset(LocalApic.EoiSlot), 0)]
    ensures processorId != -1 && old(processor.flags) & Smp.CtxWriteBit != 0 ==>
      TrappedFields(trap.regs, trap.frame)
        == Smp.ContextFields(AfterSave(old(processor.flags), old(processor.registers), old(trap.regs), old(trap.frame)))
      && Smp.ContextFields(processor.registers) == TrappedFields(old(trap.regs), old(trap.frame))
    ensures processorId != -1 && old(processor.flags) & Smp.CtxWriteBit == 0 && NextThread(tick, current) != null ==>
      processor.lastThread == old(processor.currentThread) && processor.currentThread == NextThread(tick, current)
      && trap.regs.cr3 == processor.processTables
      && TrappedFields(trap.regs, trap.frame) == Smp.ContextFields(NextThread(tick, current).ctx)
      && Smp.ContextFields(processor.registers) == TrappedFields(old(trap.regs), old(trap.frame))
    ensures processorId != -1 && old(processor.flags) & Smp.CtxWriteBit == 0 && NextThread(tick, current) == null ==>
      trap.regs == old(trap.regs) && trap.frame == old(trap.frame)
  {
    if processorId == -1 {
      lapic.Eoi();
    } else {
      var previous := pager.SwitchToKernelPages();
      Tick(processor, trap, lapic, tick, current);
    }
    rc := 0;
  }

  /** The vector-32 handler once the processor is known. */
  method Tick(processor: Smp.ProcessorDescriptor, trap: Trap, lapic: LocalApic.LocalApic,
              tick: Smp.Thread?, current: Smp.Thread?)
    modifies processor, trap, lapic, processor.lastThread
    ensures processor.flags == old(processor.flags) & !(Smp.CtxSaveBit | Smp.CtxWriteBit | Smp.WTimerBit)
    ensures lapic.log == old(lapic.log)
              + RearmWrites(old(processor.flags) & Smp.WTimerBit != 0, processor.timerMode, processor.timerTicks)
              + [LocalApic.Write(LocalApic.Offset(LocalApic.EoiSlot), 0)]
    ensures old(processor.flags) & Smp.CtxWriteBit != 0 ==>
      TrappedFields(trap.regs, trap.frame)
        == Smp.ContextFields(AfterSave(old(processor.flags), old(processor.registers), old(trap.regs), old(trap.frame)))
      && Smp.ContextFields(processor.registers) == TrappedFields(old(trap.regs), old(trap.frame))
    ensures old(processor.flags) & Smp.CtxWriteBit == 0 && NextThread(tick, current) != null ==>
      processor.lastThread == old(processor.currentThread) && processor.currentThread == NextThread(tick, current)
      && trap.regs.cr3 == processor.processTables
      && TrappedFields(trap.regs, trap.frame) == Smp.ContextFields(NextThread(tick, current).ctx)
      && Smp.ContextFields(processor.registers) == TrappedFields(old(trap.regs), old(trap.frame))
    ensures old(processor.flags) & Smp.CtxWriteBit == 0 && NextThread(tick, current) == null ==>
      trap.regs == old(trap.regs) && trap.frame == old(trap.frame)
  {
    TickFlags(processor.flags);
    Switch(processor, trap, tick, current);
    RearmTimer(processor, lapic);
    lapic.Eoi();
  }

  /** Clearing CTXSAVE and CTXWRITE, then WTIMER, clears all three. */
  lemma TickFlags(f: bv32)
    ensures (f & !(Smp.CtxSaveBit | Smp.CtxWriteBit)) & Smp.WTimerBit == f & Smp.WTimerBit
    ensures (f & !(Smp.CtxSaveBit | Smp.CtxWriteBit)) & !Smp.WTimerBit == f & !(Smp.CtxSaveBit | Smp.CtxWriteBit | Smp.WTimerBit)
  {
  }

}
