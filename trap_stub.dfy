/**
 * The interrupt entry stub of interrupt.h (ARC_DEFINE_IRQ_HANDLER) and the
 * ARC_ASM_PUSH_ALL / ARC_ASM_POP_ALL sequences of context.h it runs, as
 * steps on a processor state: the registers, rsp and the stack above it,
 * the ss and cs selectors and whether swapgs has exchanged the GS bases.
 *
 * The handler the stub calls is an input: the frame it leaves in memory
 * and the register values it returns with.  iretq is not executed: the
 * stub's result is the stack at iretq and the words iretq pops.
 */
module TrapStub {
  import opened ContextLayout

  /** The low 16 bits of a word: what a 16-bit `cmp ax, [m]` reads of it. */
  function Lo16(w: bv64): bv16
  {
    (w & 0xFFFF) as bv16
  }

  /** `mov ax, v`: only the low 16 bits of rax change. */
  function SetAx(rax: bv64, v: bv16): bv64
  {
    (rax & !0xFFFF) | (v as bv64)
  }

  /** `mov ax, v` leaves v in ax and every other bit of rax as it was. */
  lemma SetAxOnlyAx(rax: bv64, v: bv16)
    ensures Lo16(SetAx(rax, v)) == v && SetAx(rax, v) & !0xFFFF == rax & !0xFFFF
  {
  }

  /** The kernel data selector the stub loads into ss. */
  const KernelSs: bv16 := 0x10

  /** The five words iretq pops. */
  datatype IretFrame = IretFrame(rip: bv64, cs: bv64, rflags: bv64, rsp: bv64, ss: bv64)

  /** The frame the processor pushed before running the stub: rip at rsp, then cs, rflags, rsp and ss. */
  function PushedByProcessor(w: Words): IretFrame
  {
    IretFrame(Top(w), Top(Below(w)), Top(Below(Below(w))), Top(Below3(w)), Top(Below(Below3(w))))
  }

  /** The stack holding `i` at rsp above `s`, as the processor pushes it. */
  function PushIret(s: Words, i: IretFrame): Words
  {
    Word(i.rip, Word(i.cs, Word(i.rflags, Word(i.rsp, Word(i.ss, s)))))
  }

  /** The value of rsp as a register: the address modulo 2^64. */
  function Addr(rsp: int): bv64
  {
    (rsp % 0x1_0000_0000_0000_0000) as bv64
  }

  /** The frame the handler is handed: the interrupted registers, error 0 and what the processor pushed. */
  function EntryFrame(r: Registers, i: IretFrame): InterruptFrame
  {
    InterruptFrame(r, 0, i.rip, i.cs, i.rflags, i.rsp, i.ss)
  }

  /** The word at rsp + 160 that the stub compares with cs (interrupt.h:49): the frame's cs slot. */
  function FrameCs(w: Words): bv64
  {
    Top(Below(Below(Below18(w))))
  }

  /** interrupt.h:49 against context.h:99-107: the word at rsp + 160 is `ARC_InterruptFrame.cs`. */
  lemma FrameCsIsCsSlot(w: Words)
    ensures FrameCs(w) == FrameAt(w).cs
  {
  }

  /** After the placeholder and PUSH_ALL, the frame at rsp is the entry frame and the processor's words lie past it. */
  lemma EntryStack(s: Words, i: IretFrame, r: Registers)
    ensures FrameAt(PushRegisters(Word(0, PushIret(s, i)), r)) == EntryFrame(r, i)
    ensures FrameCs(PushRegisters(Word(0, PushIret(s, i)), r)) == i.cs
  {
    PushedBlockIsRegisters(Word(0, PushIret(s, i)), r);
  }

  /** A frame written over the stub's frame: its register block, then its error word above what the processor pushed. */
  lemma ExitStack(s: Words, f: InterruptFrame)
    ensures RegistersAt(PushFrame(s, f)) == f.gpr
    ensures FrameCs(PushFrame(s, f)) == f.cs
    ensures Below18(PushFrame(s, f)) == Word(f.error, PushIret(s, IretFrame(f.rip, f.cs, f.rflags, f.rsp, f.ss)))
  {
    FrameImageRoundTrip(s, f);
    PushedBlockIsRegisters(Word(f.error, Word(f.rip, Word(f.cs, Word(f.rflags, Word(f.rsp, Word(f.ss, s)))))), f.gpr);
  }

  /** Whether gs swaps on the way in or out: the frame's code selector is not the one the stub runs with. */
  predicate SwapsGs(frameCs: bv64, cs: bv16)
  {
    Lo16(frameCs) != cs
  }

  class Cpu {
    var rsp: int
    /** The words from rsp upward. */
    var stack: Words
    /** The general-purpose registers and cr0, cr3, cr4. */
    var gpr: Registers
    var ss: bv16
    /** The code selector the stub runs with. */
    var cs: bv16
    /** Whether the GS base and the kernel GS base have been exchanged an odd number of times. */
    var gsSwapped: bool

    constructor (rsp: int, stack: Words, gpr: Registers, ss: bv16, cs: bv16, gsSwapped: bool)
      ensures this.rsp == rsp && this.stack == stack && this.gpr == gpr
      ensures this.ss == ss && this.cs == cs && this.gsSwapped == gsSwapped
    {
      this.rsp := rsp;
      this.stack := stack;
      this.gpr := gpr;
      this.ss := ss;
      this.cs := cs;
      this.gsSwapped := gsSwapped;
    }

    /** `push v`. */
    method Push(v: bv64)
      modifies this
      ensures stack == Word(v, old(stack)) && rsp == old(rsp) - 8
      ensures gpr == old(gpr) && ss == old(ss) && cs == old(cs) && gsSwapped == old(gsSwapped)
    {
      rsp := rsp - 8;
      stack := Word(v, stack);
    }

    /** `pop`: the word at rsp. */
    method Pop() returns (v: bv64)
      modifies this
      ensures v == Top(old(stack)) && stack == Below(old(stack)) && rsp == old(rsp) + 8
      ensures gpr == old(gpr) && ss == old(ss) && cs == old(cs) && gsSwapped == old(gsSwapped)
    {
      v := Top(stack);
      stack := Below(stack);
      rsp := rsp + 8;
    }

    /** `swapgs`. */
    method SwapGs()
      modifies this
      ensures gsSwapped == !old(gsSwapped)
      ensures rsp == old(rsp) && stack == old(stack) && gpr == old(gpr) && ss == old(ss) && cs == old(cs)
    {
      gsSwapped := !gsSwapped;
    }

    /**
     * ARC_ASM_PUSH_ALL (context.h:32-53): fifteen registers, then cr4, cr3
     * and cr0 each through r15.  The block at rsp is then an
     * `ARC_Registers` holding the registers at entry, above the old stack;
     * r15 is left holding cr0.
     */
    method PushAll()
      modifies this
      ensures stack == PushRegisters(old(stack), old(gpr))
      ensures rsp == old(rsp) - 144
      ensures gpr == old(gpr).(r15 := old(gpr).cr0)
      ensures ss == old(ss) && cs == old(cs) && gsSwapped == old(gsSwapped)
    {
      var s, r := stack, gpr;
      s := Word(r.rbp, s);
      s := Word(r.r15, s);
      s := Word(r.r14, s);
      s := Word(r.r13, s);
      s := Word(r.r12, s);
      s := Word(r.r11, s);
      s := Word(r.r10, s);
      s := Word(r.r9, s);
      s := Word(r.r8, s);
      s := Word(r.rdi, s);
      s := Word(r.rsi, s);
      s := Word(r.rdx, s);
      s := Word(r.rcx, s);
      s := Word(r.rbx, s);
      s := Word(r.rax, s);
      r := r.(r15 := r.cr4);
      s := Word(r.r15, s);
      r := r.(r15 := r.cr3);
      s := Word(r.r15, s);
      r := r.(r15 := r.cr0);
      s := Word(r.r15, s);
      stack, rsp, gpr := s, rsp - 144, r;
    }

    /**
     * ARC_ASM_POP_ALL (context.h:55-76): the exact reverse of PUSH_ALL.
     * Whatever the block at rsp holds is what every register, cr0, cr3
     * and cr4 included, ends up with.
     */
    method PopAll()
      modifies this
      ensures gpr == RegistersAt(old(stack)) && stack == Below18(old(stack))
      ensures rsp == old(rsp) + 144
      ensures ss == old(ss) && cs == old(cs) && gsSwapped == old(gsSwapped)
    {
      var s, r := stack, gpr;
      r := r.(r15 := Top(s), cr0 := Top(s));
      s := Below(s);
      r := r.(r15 := Top(s), cr3 := Top(s));
      s := Below(s);
      r := r.(r15 := Top(s), cr4 := Top(s));
      s := Below(s);
      r := r.(rax := Top(s));
      s := Below(s);
      r := r.(rbx := Top(s));
      s := Below(s);
      r := r.(rcx := Top(s));
      s := Below(s);
      r := r.(rdx := Top(s));
      s := Below(s);
      r := r.(rsi := Top(s));
      s := Below(s);
      r := r.(rdi := Top(s));
      s := Below(s);
      r := r.(r8 := Top(s));
      s := Below(s);
      r := r.(r9 := Top(s));
      s := Below(s);
      r := r.(r10 := Top(s));
      s := Below(s);
      r := r.(r11 := Top(s));
      s := Below(s);
      r := r.(r12 := Top(s));
      s := Below(s);
      r := r.(r13 := Top(s));
      s := Below(s);
      r := r.(r14 := Top(s));
      s := Below(s);
      r := r.(r15 := Top(s));
      s := Below(s);
      r := r.(rbp := Top(s));
      s := Below(s);
      stack, rsp, gpr := s, rsp + 144, r;
    }

    /** `mov ax, cs; cmp ax, [rsp + 160]; je 1f; swapgs; 1:` (interrupt.h:49 and 51): 160 is the frame's cs. */
    method SwapGsUnlessKernelCs()
      modifies this
      ensures gsSwapped == (old(gsSwapped) != SwapsGs(FrameCs(stack), cs))
      ensures gpr == old(gpr).(rax := SetAx(old(gpr).rax, cs))
      ensures rsp == old(rsp) && stack == old(stack) && ss == old(ss) && cs == old(cs)
    {
      var ax := cs;
      gpr := gpr.(rax := SetAx(gpr.rax, ax));
      if SwapsGs(FrameCs(stack), ax) {
        SwapGs();
      }
    }

    /** `push 0` and ARC_ASM_PUSH_ALL: the error placeholder, then the register block. */
    method SaveAll()
      modifies this
      ensures stack == PushRegisters(Word(0, old(stack)), old(gpr))
      ensures rsp == old(rsp) - 152 && gpr == old(gpr).(r15 := old(gpr).cr0)
      ensures ss == old(ss) && cs == old(cs) && gsSwapped == old(gsSwapped)
    {
      Push(0);
      PushAll();
    }

    /**
     * The stub up to the handler call (interrupt.h:46-50): the error
     * placeholder, PUSH_ALL, ss := 0x10, swapgs when coming from another
     * code selector, and rdi := rsp.  The handler is handed, at rdi, the
     * frame of the interrupted registers, error 0 and what the processor
     * pushed: `i` above the words `s`.
     */
    method Enter(ghost s: Words, ghost i: IretFrame)
      requires stack == PushIret(s, i)
      modifies this
      ensures stack == PushRegisters(Word(0, PushIret(s, i)), old(gpr))
      ensures rsp == old(rsp) - 152 && gpr.rdi == Addr(rsp)
      ensures ss == KernelSs && cs == old(cs)
      ensures gsSwapped == (old(gsSwapped) != SwapsGs(i.cs, old(cs)))
    {
      EntryStack(s, i, gpr);
      SaveAll();
      LoadKernelSs();
      SwapGsUnlessKernelCs();
      PointRdiAtFrame();
    }

    /** `mov ax, 0x10; mov ss, ax`. */
    method LoadKernelSs()
      modifies this
      ensures ss == KernelSs && gpr == old(gpr).(rax := SetAx(old(gpr).rax, KernelSs))
      ensures rsp == old(rsp) && stack == old(stack) && cs == old(cs) && gsSwapped == old(gsSwapped)
    {
      var ax := KernelSs;
      gpr := gpr.(rax := SetAx(gpr.rax, ax));
      ss := ax;
    }

    /** `mov rdi, rsp`: the handler's argument is the address of the frame. */
    method PointRdiAtFrame()
      modifies this
      ensures gpr == old(gpr).(rdi := Addr(rsp))
      ensures rsp == old(rsp) && stack == old(stack) && ss == old(ss) && cs == old(cs) && gsSwapped == old(gsSwapped)
    {
      gpr := gpr.(rdi := Addr(rsp));
    }

    /** The handler: it rewrites the frame at rsp and returns with its own register values. */
    method Handle(s: Words, handled: InterruptFrame, clobbered: Registers)
      modifies this
      ensures stack == PushFrame(s, handled) && gpr == clobbered
      ensures rsp == old(rsp) && ss == old(ss) && cs == old(cs) && gsSwapped == old(gsSwapped)
    {
      stack := PushFrame(s, handled);
      gpr := clobbered;
    }

    /**
     * The stub after the handler returns (interrupt.h:51-52): swapgs when
     * going back to another code selector, POP_ALL, `add rsp, 8`.  Every
     * register comes from the frame at rsp, and rsp is left at the frame's
     * rip, the first of the words iretq pops.  `f` is the frame at rsp,
     * above the words `s`.
     */
    method Leave(ghost s: Words, ghost f: InterruptFrame) returns (iret: IretFrame)
      requires stack == PushFrame(s, f)
      modifies this
      ensures gpr == f.gpr
      ensures iret == IretFrame(f.rip, f.cs, f.rflags, f.rsp, f.ss)
      ensures stack == PushIret(s, iret) && rsp == old(rsp) + 152
      ensures gsSwapped == (old(gsSwapped) != SwapsGs(f.cs, old(cs)))
      ensures ss == old(ss) && cs == old(cs)
    {
      ExitStack(s, f);
      SwapGsUnlessKernelCs();
      PopAll();
      var error := Pop();
      iret := PushedByProcessor(stack);
    }
  }

  /**
   * One interrupt through the stub: the processor has pushed `interrupted`
   * above the words `s`; the handler is handed `seen` at address
   * `frameAddr` and leaves `handled` there, returning with the registers
   * `clobbered`.  At iretq every register is the one in `handled` (so
   * writing the frame switches context, cr3 included), rsp is back where
   * the processor left it with `handled`'s rip, cs, rflags, rsp and ss
   * there for iretq, and the two swapgs cancel out when the handler kept
   * the frame's code selector.
   */
  method Interrupt(cpu: Cpu, s: Words, interrupted: IretFrame, handled: InterruptFrame, clobbered: Registers)
    returns (seen: InterruptFrame, frameAddr: int, iret: IretFrame)
    requires cpu.stack == PushIret(s, interrupted)
    modifies cpu
    ensures seen == EntryFrame(old(cpu.gpr), interrupted)
    ensures frameAddr == old(cpu.rsp) - 152
    ensures cpu.gpr == handled.gpr && cpu.ss == KernelSs && cpu.cs == old(cpu.cs)
    ensures iret == IretFrame(handled.rip, handled.cs, handled.rflags, handled.rsp, handled.ss)
    ensures cpu.rsp == old(cpu.rsp) && cpu.stack == PushIret(s, iret)
    ensures cpu.gsSwapped == (old(cpu.gsSwapped) != (SwapsGs(interrupted.cs, old(cpu.cs)) != SwapsGs(handled.cs, old(cpu.cs))))
  {
    EntryStack(s, interrupted, cpu.gpr);
    cpu.Enter(s, interrupted);
    seen := FrameAt(cpu.stack);
    // rdi holds this address, as a register value, when the handler is called.
    frameAddr := cpu.rsp;
    cpu.Handle(s, handled, clobbered);
    iret := cpu.Leave(s, handled);
  }
}
