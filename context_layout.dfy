/**
 * The saved-state layouts of context.h: `ARC_Registers` (the block
 * ARC_ASM_PUSH_ALL leaves on the stack) and `ARC_InterruptFrame` (that
 * block, the error word and the frame the processor pushes).  Every field
 * is a packed `uint64_t`, so field k sits at byte 8k from the start.
 *
 * A stack is its 64-bit words from rsp upward: the word at rsp, then the
 * stack beneath it.  A push puts a word on top, a pop takes it off, and
 * the word at rsp + 8k is the one k pops down.  Below the words the model
 * tracks, memory reads as zero.
 */
module ContextLayout {

  /** `ARC_Registers`, in declaration order. */
  datatype Registers = Registers(
    cr0: bv64, cr3: bv64, cr4: bv64,
    rax: bv64, rbx: bv64, rcx: bv64, rdx: bv64, rsi: bv64, rdi: bv64,
    r8: bv64, r9: bv64, r10: bv64, r11: bv64, r12: bv64, r13: bv64, r14: bv64, r15: bv64,
    rbp: bv64)

  /** `ARC_InterruptFrame`: the register block, the error word, then what the processor pushes. */
  datatype InterruptFrame = InterruptFrame(gpr: Registers, error: bv64, rip: bv64, cs: bv64, rflags: bv64,
                                           rsp: bv64, ss: bv64)

  /** A stack: empty, or the word at rsp on top of the rest. */
  datatype Words = Bottom | Word(top: bv64, rest: Words)

  /** The word at rsp. */
  function Top(w: Words): bv64
  {
    if w.Word? then w.top else 0
  }

  /** The stack one word further up in memory: what is left after a pop. */
  function Below(w: Words): Words
  {
    if w.Word? then w.rest else Bottom
  }

  function Below3(w: Words): Words
  {
    Below(Below(Below(w)))
  }

  function Below6(w: Words): Words
  {
    Below3(Below3(w))
  }

  /** What lies past an `ARC_Registers` block (144 bytes) at rsp. */
  function Below18(w: Words): Words
  {
    Below6(Below6(Below6(w)))
  }

  /** What lies past an `ARC_InterruptFrame` (192 bytes) at rsp. */
  function Below24(w: Words): Words
  {
    Below6(Below18(w))
  }

  /** The `ARC_Registers` at rsp: cr0 at +0, cr3 at +8, cr4 at +16, rax at +24, ..., rbp at +136. */
  function RegistersAt(w: Words): Registers
  {
    var w1 := Below(w); var w2 := Below(w1); var w3 := Below(w2); var w4 := Below(w3);
    var w5 := Below(w4); var w6 := Below(w5); var w7 := Below(w6); var w8 := Below(w7);
    var w9 := Below(w8); var w10 := Below(w9); var w11 := Below(w10); var w12 := Below(w11);
    var w13 := Below(w12); var w14 := Below(w13); var w15 := Below(w14); var w16 := Below(w15);
    var w17 := Below(w16);
    Registers(Top(w), Top(w1), Top(w2), Top(w3), Top(w4), Top(w5), Top(w6), Top(w7), Top(w8),
              Top(w9), Top(w10), Top(w11), Top(w12), Top(w13), Top(w14), Top(w15), Top(w16), Top(w17))
  }

  /**
   * The `ARC_InterruptFrame` at rsp: the registers, then error at +144,
   * rip at +152, cs at +160, rflags at +168, rsp at +176 and ss at +184.
   */
  function FrameAt(w: Words): InterruptFrame
  {
    var e := Below18(w);
    InterruptFrame(RegistersAt(w), Top(e), Top(Below(e)), Top(Below(Below(e))), Top(Below3(e)),
                   Top(Below(Below3(e))), Top(Below(Below(Below3(e)))))
  }

  /** The stack after ARC_ASM_PUSH_ALL's pushes of `r` onto `s`: rbp first, ..., rax, cr4, cr3, cr0 last. */
  function PushRegisters(s: Words, r: Registers): Words
  {
    Word(r.cr0, Word(r.cr3, Word(r.cr4, Word(r.rax, Word(r.rbx, Word(r.rcx, Word(r.rdx, Word(r.rsi, Word(r.rdi,
    Word(r.r8, Word(r.r9, Word(r.r10, Word(r.r11, Word(r.r12, Word(r.r13, Word(r.r14, Word(r.r15, Word(r.rbp,
    s))))))))))))))))))
  }

  /** The stack holding frame `f` at rsp above `s`: ss pushed first, then rsp, rflags, cs, rip, the error word and the registers. */
  function PushFrame(s: Words, f: InterruptFrame): Words
  {
    PushRegisters(Word(f.error, Word(f.rip, Word(f.cs, Word(f.rflags, Word(f.rsp, Word(f.ss, s)))))), f.gpr)
  }

  /** Whether the stack holds at least the 18 words of a register block. */
  predicate HoldsRegisters(w: Words)
  {
    Below(Below(Below(Below(Below(Below(Below(Below(Below(Below(Below(Below(Below(Below(Below(Below(Below(
      w))))))))))))))))).Word?
  }

  /**
   * context.h:32-53 against 78-97: the push order is the reverse of the
   * field order, so after PUSH_ALL the block at rsp is exactly the
   * registers that were pushed, and what lies past it is untouched.
   */
  lemma PushedBlockIsRegisters(s: Words, r: Registers)
    ensures RegistersAt(PushRegisters(s, r)) == r
    ensures Below18(PushRegisters(s, r)) == s
    ensures HoldsRegisters(PushRegisters(s, r))
  {
  }

  /**
   * context.h:55-97, the other direction: a stack holding a register
   * block is that block pushed onto what lies past it, so popping the
   * block into registers and pushing them back restores the stack.
   */
  lemma RegistersBlockIsPushed(w: Words)
    requires HoldsRegisters(w)
    ensures PushRegisters(Below18(w), RegistersAt(w)) == w
  {
  }

  /** context.h:99-107: a frame pushed in layout order reads back at rsp as that frame. */
  lemma FrameImageRoundTrip(s: Words, f: InterruptFrame)
    ensures FrameAt(PushFrame(s, f)) == f
    ensures Below24(PushFrame(s, f)) == s
  {
    PushedBlockIsRegisters(Word(f.error, Word(f.rip, Word(f.cs, Word(f.rflags, Word(f.rsp, Word(f.ss, s)))))), f.gpr);
  }

  /** An all-zero register block: what `memset` leaves in a fresh context. */
  const ZeroRegisters: Registers := Registers(0, 0, 0, 0, 0, 0, 0, 0, 0, 0, 0, 0, 0, 0, 0, 0, 0, 0)

  /** An all-zero interrupt frame. */
  const ZeroFrame: InterruptFrame := InterruptFrame(ZeroRegisters, 0, 0, 0, 0, 0, 0)

  // ---------------------------------------------------------------------------
  // `ARC_Context` (context.h:109-113) and the extended-state area it points to
  // ---------------------------------------------------------------------------

  /** The instruction pair that saves and restores the extended (x87/SSE/AVX) state. */
  datatype SaveForm = NoSave | FxSave | XSave

  /**
   * The processor's extended register state, abstractly: the state after
   * a restore from an all-zero area, some live state, or state restored
   * from an image the instruction could not read back as written.
   */
  datatype ExtState = Initial | Live(id: int) | Garbled

  /**
   * What an extended-state area holds: the zero bytes `memset` left, the
   * image one save instruction wrote, or an image that ran past the end
   * of the area (its tail landed in memory the area does not own).
   */
  datatype AreaImage = Zeroed | Image(form: SaveForm, state: ExtState) | Overrun(form: SaveForm, state: ExtState)

  /** The memory `xsave_space` points to. */
  class ExtArea {
    const size: nat
    var image: AreaImage

    constructor (size: nat)
      ensures this.size == size && image == Zeroed
    {
      this.size := size;
      image := Zeroed;
    }
  }

  /** `ARC_Context`: the extended-state area (or null), the thread-control block and the saved frame. */
  class Context {
    var xsaveSpace: ExtArea?
    var tcb: bv64
    var frame: InterruptFrame

    /** A context as `memset` leaves it: null area, zero TCB, zero frame. */
    constructor ()
      ensures xsaveSpace == null && tcb == 0 && frame == ZeroFrame
    {
      xsaveSpace := null;
      tcb := 0;
      frame := ZeroFrame;
    }
  }
}
