/**
 * SSE enablement for a saved context (sse.c): a fresh 512-byte FXSAVE
 * area and the CR0/CR4 bits SSE needs, written into the context's saved
 * frame so that they take effect when the frame is next loaded.
 */
module Sse {
  import opened ContextLayout

  /** CR0.EM (bit 2): x87 emulation, which must be off for SSE. */
  const Cr0Em: bv64 := 0x4
  /** CR0.MP (bit 1): monitor coprocessor. */
  const Cr0Mp: bv64 := 0x2
  /** CR4.OSXMMEXCPT (bit 10): the OS handles SIMD floating-point exceptions. */
  const Cr4OsXmmExcpt: bv64 := 0x400

  /** The size of the area `init_sse` allocates: one FXSAVE image. */
  const FxAreaSize: nat := 512

  /** `cr0 &= ~(1 << 2); cr0 |= (1 << 1)`: EM cleared, MP set, every other bit kept. */
  function SseCr0(cr0: bv64): (r: bv64)
    ensures r & Cr0Em == 0 && r & Cr0Mp == Cr0Mp
    ensures r & !(Cr0Em | Cr0Mp) == cr0 & !(Cr0Em | Cr0Mp)
  {
    (cr0 & !Cr0Em) | Cr0Mp
  }

  /** `cr4 |= (1 << 10)`: OSXMMEXCPT set, every other bit kept. */
  function SseCr4(cr4: bv64): (r: bv64)
    ensures r & Cr4OsXmmExcpt == Cr4OsXmmExcpt
    ensures r & !Cr4OsXmmExcpt == cr4 & !Cr4OsXmmExcpt
  {
    cr4 | Cr4OsXmmExcpt
  }

  /** A second pass of the control-register edits changes nothing. */
  lemma SseEditsIdempotent(cr0: bv64, cr4: bv64)
    ensures SseCr0(SseCr0(cr0)) == SseCr0(cr0)
    ensures SseCr4(SseCr4(cr4)) == SseCr4(cr4)
  {
  }

  /** The registers of `r` with SSE's CR0 and CR4 bits applied. */
  function SseRegisters(r: Registers): Registers
  {
    r.(cr0 := SseCr0(r.cr0), cr4 := SseCr4(r.cr4))
  }

  /** The saved frame with SSE's CR0 and CR4 bits applied and nothing else changed. */
  function SseFrame(f: InterruptFrame): (g: InterruptFrame)
    ensures g.gpr.cr0 == SseCr0(f.gpr.cr0) && g.gpr.cr4 == SseCr4(f.gpr.cr4)
    ensures g.(gpr := g.gpr.(cr0 := f.gpr.cr0, cr4 := f.gpr.cr4)) == f
  {
    f.(gpr := SseRegisters(f.gpr))
  }

  /** Applying the edits to a frame twice is the same as once. */
  lemma SseFrameIdempotent(f: InterruptFrame)
    ensures SseFrame(SseFrame(f)) == SseFrame(f)
  {
    SseEditsIdempotent(f.gpr.cr0, f.gpr.cr4);
  }

  /**
   * `init_sse`: with `allocates` saying whether `alloc(512)` succeeds.
   * On failure it returns -3 and leaves the context alone.  On success
   * the context points at a fresh zeroed 512-byte area, whatever area it
   * pointed at before, and the saved frame carries the SSE control bits.
   */
  method InitSse(context: Context, allocates: bool) returns (rc: int)
    modifies context
    ensures !allocates ==> rc == -3 && unchanged(context)
    ensures allocates ==> rc == 0 && context.xsaveSpace != null && fresh(context.xsaveSpace)
                          && context.xsaveSpace.size == FxAreaSize && context.xsaveSpace.image == Zeroed
                          && context.frame == SseFrame(old(context.frame)) && context.tcb == old(context.tcb)
  {
    if !allocates {
      return -3;
    }
    var area := new ExtArea(FxAreaSize);
    context.xsaveSpace := area;
    context.frame := SseFrame(context.frame);
    rc := 0;
  }
}
