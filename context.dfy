/**
 * Per-thread execution contexts (context.c): creating a context with an
 * extended-state area sized to the processor's features, saving and
 * loading a context around a trap frame, the thread-control block in the
 * FS base, recording the processor's features from CPUID, and comparing
 * the features one processor needs with those another offers.
 *
 * The processor is a `Processor` object: its feature record, its FS base,
 * CR0/CR4 and its extended (x87/SSE/AVX) register state.  CPUID words and
 * the outcome of each `alloc` are inputs.
 *
 * Each feature word (`proc0`, `paging`) and the `flags` of `init_context`
 * is a bit set of named flags; the header that gives the flags their bit
 * positions is not part of this model, so a word is the set of flags
 * whose bits are on: `w |= 1 << F` adds F, `ARC_CHECK_FEATURE(w, F)` and
 * `MASKED_READ(w, F, 1)` test F's membership, and `(n ^ a) & n` is the
 * difference n - a.
 */
module Context {
  import opened ContextLayout
  import Sse

  /** The `ARC_PROC0_FLAG_*` processor features. */
  datatype Proc0Flag = FxSaveFlag | XSaveFlag | Sse1 | Sse2 | Sse3 | Ssse3 | Sse41 | Sse42
                     | Tsc | ApicFlag | Msr | Clflush | SelfSnoop | Vmx | X2Apic | Hypervisor | Avx | Rdrnd

  /** The `ARC_PAGER_FLAG_*` paging features. */
  datatype PagingFlag = NoExec | OneGib | Pcid | Pml5 | Pks

  /** The `ARC_CONTEXT_FLAG_*` flags of `init_context`. */
  datatype ContextFlag = Floats

  /** Every processor feature flag. */
  const AllProc0: set<Proc0Flag> := {FxSaveFlag, XSaveFlag, Sse1, Sse2, Sse3, Ssse3, Sse41, Sse42,
                                     Tsc, ApicFlag, Msr, Clflush, SelfSnoop, Vmx, X2Apic, Hypervisor, Avx, Rdrnd}

  /** CR4.OSFXSR (bit 9), CR4.PCIDE (bit 17) and CR4.OSXSAVE (bit 18). */
  const Cr4OsFxSr: bv64 := 0x200
  const Cr4Pcide: bv64 := 0x2_0000
  const Cr4OsXSave: bv64 := 0x4_0000

  /** The bytes each save instruction writes: the 512-byte legacy image, plus the 64-byte header for XSAVE. */
  function ImageSize(form: SaveForm): nat
  {
    match form
    case NoSave => 0
    case FxSave => 512
    case XSave => 576
  }

  /** `MASKED_READ(w, k, 1)` on a 32-bit CPUID word. */
  predicate CpuidBit(w: bv32, k: bv32)
    requires k < 32
  {
    (w >> k) & 1 == 1
  }

  /** `ARC_ProcessorFeatures`: the paging and processor feature words, updated in place. */
  class ProcessorFeatures {
    var paging: set<PagingFlag>
    var proc0: set<Proc0Flag>

    constructor (paging: set<PagingFlag>, proc0: set<Proc0Flag>)
      ensures this.paging == paging && this.proc0 == proc0
    {
      this.paging := paging;
      this.proc0 := proc0;
    }
  }

  /** The save form both `context_save` and `context_load` pick: XSAVE if available, else FXSAVE if available. */
  function Form(proc0: set<Proc0Flag>): (f: SaveForm)
    ensures f == XSave <==> XSaveFlag in proc0
    ensures f == FxSave <==> XSaveFlag !in proc0 && FxSaveFlag in proc0
  {
    if XSaveFlag in proc0 then XSave
    else if FxSaveFlag in proc0 then FxSave
    else NoSave
  }

  /**
   * `xsave_space_size` in `init_context`: 576 with XSAVE, else 512 with
   * FXSAVE, else 0.  The same feature test picks the save form, so the
   * area is exactly as large as the image the save writes.
   */
  function AreaSize(proc0: set<Proc0Flag>): (n: nat)
    ensures n == ImageSize(Form(proc0))
    ensures n == 0 || n >= 512
  {
    if XSaveFlag in proc0 then 576
    else if FxSaveFlag in proc0 then 512
    else 0
  }

  /** What a save of `state` in `form` leaves in an area of `size` bytes. */
  function SavedImage(form: SaveForm, size: nat, state: ExtState): (img: AreaImage)
    ensures img.Image? <==> size >= ImageSize(form)
    ensures img.Image? || img.Overrun?
    ensures img.form == form && img.state == state
  {
    if size >= ImageSize(form) then Image(form, state) else Overrun(form, state)
  }

  /**
   * The extended state a restore in `form` produces from an area: an
   * all-zero area gives the initial state, an intact image written in the
   * same form gives the state it holds, anything else is garbled.
   */
  function Restored(form: SaveForm, img: AreaImage): (s: ExtState)
    ensures img.Image? && img.form == form ==> s == img.state
    ensures img.Overrun? || (img.Image? && img.form != form) ==> s == Garbled
  {
    match img
    case Zeroed => Initial
    case Image(f, state) => if f == form then state else Garbled
    case Overrun(_, _) => Garbled
  }

  /** A restore in the form of the save, from an area large enough, gives back the saved state. */
  lemma RestoreAfterSave(form: SaveForm, size: nat, state: ExtState)
    requires size >= ImageSize(form)
    ensures Restored(form, SavedImage(form, size, state)) == state
  {
  }

  /**
   * A context created with FLOATS on a processor with XSAVE ends up with
   * `init_sse`'s 512-byte area, smaller than the 576 bytes XSAVE writes:
   * saving into it overruns the area and the image does not restore.
   */
  lemma FloatsAreaOverrunsXSave(state: ExtState)
    ensures Sse.FxAreaSize < ImageSize(XSave)
    ensures SavedImage(XSave, Sse.FxAreaSize, state).Overrun?
    ensures Restored(XSave, SavedImage(XSave, Sse.FxAreaSize, state)) == Garbled
  {
  }

  /** On the words themselves, `(needed ^ avl) & needed` keeps exactly the bits on in `needed` and off in `avl`. */
  lemma XorMaskIsDifference(needed: bv64, avl: bv64)
    ensures (needed ^ avl) & needed == needed & !avl
  {
  }

  /** `(needed ^ avl) & needed`: the flags needed but not available. */
  function Missing(needed: set<PagingFlag>, avl: set<PagingFlag>): (m: set<PagingFlag>)
    ensures forall x :: x in m <==> x in needed && x !in avl
  {
    needed - avl
  }

  /**
   * `context_check_features`: -1 when some paging feature is missing and
   * PCID is not among the missing ones (a missing PCID excuses the rest),
   * 0 otherwise.  The processor features are compared but never decide.
   */
  function CheckFeatures(needed: ProcessorFeatures, avl: ProcessorFeatures): (rc: int)
    reads needed, avl
    ensures rc == 0 || rc == -1
    ensures rc == -1 <==> (exists f :: f in needed.paging && f !in avl.paging) && !(Pcid in needed.paging && Pcid !in avl.paging)
  {
    var paging := Missing(needed.paging, avl.paging);
    if paging == {} then
      assert forall f :: f !in needed.paging || f in avl.paging by {
        forall f | f in needed.paging ensures f in avl.paging {
          assert f !in paging;
        }
      }
      0
    else if Pcid in paging then 0
    else -1
  }

  /** Only the paging words decide: records that agree on them get the same verdict, whatever their processor words. */
  lemma Proc0Ignored(needed: ProcessorFeatures, avl: ProcessorFeatures, needed': ProcessorFeatures, avl': ProcessorFeatures)
    requires needed.paging == needed'.paging && avl.paging == avl'.paging
    ensures CheckFeatures(needed, avl) == CheckFeatures(needed', avl')
  {
  }

  /** The verdict is a function of the missing paging flags alone: an available record with every needed flag passes. */
  lemma NothingMissingPasses(needed: ProcessorFeatures, avl: ProcessorFeatures)
    requires needed.paging <= avl.paging
    ensures CheckFeatures(needed, avl) == 0
  {
  }

  /** A needed PCID that is missing lets the check pass whatever else is missing. */
  lemma MissingPcidExcuses(needed: ProcessorFeatures, avl: ProcessorFeatures)
    requires Pcid in needed.paging && Pcid !in avl.paging
    ensures CheckFeatures(needed, avl) == 0
  {
  }

  /** A missing paging flag other than PCID fails the check unless PCID is missing too. */
  lemma MissingFlagFails(needed: ProcessorFeatures, avl: ProcessorFeatures, f: PagingFlag)
    requires f in needed.paging && f !in avl.paging
    requires !(Pcid in needed.paging && Pcid !in avl.paging)
    ensures CheckFeatures(needed, avl) == -1
  {
  }

  /** Which CPUID leaf 1 register a flag is read from. */
  datatype Leaf1Reg = Ecx | Edx

  /** The register `context_set_proc_features` reads each processor flag from (context.c:114-156). */
  function SourceReg(f: Proc0Flag): Leaf1Reg
  {
    match f
    case XSaveFlag | Sse1 | Sse2 | Tsc | ApicFlag | Msr | Clflush | SelfSnoop => Ecx
    case FxSaveFlag | Sse3 | Ssse3 | Sse41 | Sse42 | Vmx | X2Apic | Hypervisor | Avx | Rdrnd => Edx
  }

  /** The bit `context_set_proc_features` reads each processor flag from (context.c:114-156). */
  function SourceBit(f: Proc0Flag): (k: bv32)
    ensures k < 32
  {
    match f
    case FxSaveFlag => 24
    case XSaveFlag => 26
    case Sse1 => 25
    case Sse2 => 26
    case Sse3 => 1
    case Ssse3 => 9
    case Sse41 => 19
    case Sse42 => 20
    case Tsc => 4
    case ApicFlag => 9
    case Msr => 5
    case Clflush => 19
    case SelfSnoop => 27
    case Vmx => 5
    case X2Apic => 21
    case Hypervisor => 31
    case Avx => 28
    case Rdrnd => 30
  }

  /**
   * Where CPUID leaf 1 reports each flag (Intel SDM Vol. 2A, CPUID,
   * "Feature Information"): SSE, SSE2, TSC, MSR, APIC, CLFLUSH, SS and the
   * FXSR bit in EDX; XSAVE, SSE3, SSSE3, SSE4.1, SSE4.2, VMX, x2APIC, AVX,
   * RDRAND and the hypervisor bit in ECX.
   */
  function SdmReg(f: Proc0Flag): Leaf1Reg
  {
    match f
    case FxSaveFlag | Sse1 | Sse2 | Tsc | ApicFlag | Msr | Clflush | SelfSnoop => Edx
    case XSaveFlag | Sse3 | Ssse3 | Sse41 | Sse42 | Vmx | X2Apic | Hypervisor | Avx | Rdrnd => Ecx
  }

  /** The bit of `SdmReg(f)` that reports `f`: as in the source except SSE3, which is ECX bit 0. */
  function SdmBit(f: Proc0Flag): (k: bv32)
    ensures k < 32
    ensures f != Sse3 ==> k == SourceBit(f)
  {
    if f == Sse3 then 0 else SourceBit(f)
  }

  /** The flags whose bit, in the register and at the position `reg` and `bit` give, is on. */
  function Reported(ecx: bv32, edx: bv32, reg: Proc0Flag -> Leaf1Reg, bit: Proc0Flag -> bv32): (b: set<Proc0Flag>)
    requires forall f :: bit(f) < 32
  {
    set f | f in AllProc0 && CpuidBit(if reg(f) == Ecx then ecx else edx, bit(f))
  }

  /**
   * The processor flags `context_set_proc_features` ORs in from CPUID
   * leaf 1's ECX and EDX, each read from the register and bit the source
   * names.
   */
  function Proc0Bits(ecx: bv32, edx: bv32): set<Proc0Flag>
  {
    Reported(ecx, edx, SourceReg, SourceBit)
  }

  /** The two save-form flags, set together with their CR4 enable bits (context.c:114-128). */
  function SaveFormBits(ecx: bv32, edx: bv32): set<Proc0Flag>
  {
    (if CpuidBit(edx, 24) then {FxSaveFlag} else {}) + (if CpuidBit(ecx, 26) then {XSaveFlag} else {})
  }

  /** The sixteen instruction-set and platform flags ORed in unconditionally (context.c:139-156). */
  function ExtensionBits(ecx: bv32, edx: bv32): set<Proc0Flag>
  {
    Proc0Bits(ecx, edx) - {FxSaveFlag, XSaveFlag}
  }

  /** The save-form flags come from EDX bit 24 (FXSR) and ECX bit 26 (XSAVE), as the conditional ORs read them. */
  lemma SaveFormSites(ecx: bv32, edx: bv32)
    ensures FxSaveFlag in Proc0Bits(ecx, edx) <==> CpuidBit(edx, 24)
    ensures XSaveFlag in Proc0Bits(ecx, edx) <==> CpuidBit(ecx, 26)
    ensures SaveFormBits(ecx, edx) == Proc0Bits(ecx, edx) * {FxSaveFlag, XSaveFlag}
  {
  }

  /** The SIMD flags as the source reads them: SSE and SSE2 from ECX, SSE3 to SSE4.2 from EDX. */
  lemma SimdSites(ecx: bv32, edx: bv32)
    ensures (Sse1 in Proc0Bits(ecx, edx) <==> CpuidBit(ecx, 25)) && (Sse2 in Proc0Bits(ecx, edx) <==> CpuidBit(ecx, 26))
    ensures (Sse3 in Proc0Bits(ecx, edx) <==> CpuidBit(edx, 1)) && (Ssse3 in Proc0Bits(ecx, edx) <==> CpuidBit(edx, 9))
    ensures (Sse41 in Proc0Bits(ecx, edx) <==> CpuidBit(edx, 19)) && (Sse42 in Proc0Bits(ecx, edx) <==> CpuidBit(edx, 20))
  {
  }

  /** The platform flags as the source reads them: TSC, APIC, MSR, CLFLUSH and SS from ECX. */
  lemma PlatformSites(ecx: bv32, edx: bv32)
    ensures (Tsc in Proc0Bits(ecx, edx) <==> CpuidBit(ecx, 4)) && (ApicFlag in Proc0Bits(ecx, edx) <==> CpuidBit(ecx, 9))
    ensures (Msr in Proc0Bits(ecx, edx) <==> CpuidBit(ecx, 5)) && (Clflush in Proc0Bits(ecx, edx) <==> CpuidBit(ecx, 19))
    ensures SelfSnoop in Proc0Bits(ecx, edx) <==> CpuidBit(ecx, 27)
  {
  }

  /** The remaining flags as the source reads them: VMX, x2APIC, hypervisor, AVX and RDRAND from EDX. */
  lemma ExtraSites(ecx: bv32, edx: bv32)
    ensures (Vmx in Proc0Bits(ecx, edx) <==> CpuidBit(edx, 5)) && (X2Apic in Proc0Bits(ecx, edx) <==> CpuidBit(edx, 21))
    ensures (Hypervisor in Proc0Bits(ecx, edx) <==> CpuidBit(edx, 31)) && (Avx in Proc0Bits(ecx, edx) <==> CpuidBit(edx, 28))
    ensures Rdrnd in Proc0Bits(ecx, edx) <==> CpuidBit(edx, 30)
  {
  }

  /** The same flags read where CPUID leaf 1 reports them. */
  function SdmProc0Bits(ecx: bv32, edx: bv32): set<Proc0Flag>
  {
    Reported(ecx, edx, SdmReg, SdmBit)
  }

  /** The corrected reading takes SSE and SSE2 from EDX and SSE3 to SSE4.2 from ECX. */
  lemma SdmSimdSites(ecx: bv32, edx: bv32)
    ensures (Sse1 in SdmProc0Bits(ecx, edx) <==> CpuidBit(edx, 25)) && (Sse2 in SdmProc0Bits(ecx, edx) <==> CpuidBit(edx, 26))
    ensures (Sse3 in SdmProc0Bits(ecx, edx) <==> CpuidBit(ecx, 0)) && (Ssse3 in SdmProc0Bits(ecx, edx) <==> CpuidBit(ecx, 9))
    ensures (Sse41 in SdmProc0Bits(ecx, edx) <==> CpuidBit(ecx, 19)) && (Sse42 in SdmProc0Bits(ecx, edx) <==> CpuidBit(ecx, 20))
  {
  }

  /** Both readings agree on the two save-form flags, which the source reads from the right registers. */
  lemma SaveFormsAgree(ecx: bv32, edx: bv32)
    ensures SdmProc0Bits(ecx, edx) * {FxSaveFlag, XSaveFlag} == SaveFormBits(ecx, edx)
  {
  }

  /**
   * A processor with SSE (CPUID.1:EDX[25]) but without AES
   * (CPUID.1:ECX[25]) is recorded without the SSE1 flag, because the
   * source reads ECX where leaf 1 reports SSE in EDX.
   */
  lemma SseMisreadFromEcx()
    ensures Sse1 !in Proc0Bits(0, 0x0200_0000)
    ensures Sse1 in SdmProc0Bits(0, 0x0200_0000)
  {
  }

  /** The paging flags ORed in: PCID from CPUID.1:ECX[17], PML5 and PKS from CPUID.7:ECX[16] and [31]. */
  function PagingBits(ecx1: bv32, ecx7: bv32): (b: set<PagingFlag>)
    ensures Pcid in b <==> CpuidBit(ecx1, 17)
    ensures Pml5 in b <==> CpuidBit(ecx7, 16)
    ensures Pks in b <==> CpuidBit(ecx7, 31)
    ensures b <= {Pcid, Pml5, Pks}
  {
    (if CpuidBit(ecx1, 17) then {Pcid} else {}) + Leaf7PagingBits(ecx7)
  }

  /** PML5 and PKS from CPUID leaf 7's ECX (context.c:160-168). */
  function Leaf7PagingBits(ecx7: bv32): set<PagingFlag>
  {
    (if CpuidBit(ecx7, 16) then {Pml5} else {}) + (if CpuidBit(ecx7, 31) then {Pks} else {})
  }

  /** `x | mask` when `c` holds, else `x`. */
  function SetIf(x: bv64, c: bool, mask: bv64): bv64
  {
    if c then x | mask else x
  }

  /** CR4 after `context_set_proc_features`: OSFXSR with FXSAVE, OSXSAVE with XSAVE, PCIDE with PCID. */
  function Cr4Enabled(cr4: bv64, ecx1: bv32, edx1: bv32): bv64
  {
    SetIf(SetIf(SetIf(cr4, CpuidBit(edx1, 24), Cr4OsFxSr), CpuidBit(ecx1, 26), Cr4OsXSave), CpuidBit(ecx1, 17), Cr4Pcide)
  }

  /** Each enable bit is on exactly when it was on or its feature is reported; every other CR4 bit is kept. */
  lemma Cr4EnabledBits(cr4: bv64, ecx1: bv32, edx1: bv32)
    ensures Cr4Enabled(cr4, ecx1, edx1) & Cr4OsFxSr != 0 <==> cr4 & Cr4OsFxSr != 0 || CpuidBit(edx1, 24)
    ensures Cr4Enabled(cr4, ecx1, edx1) & Cr4OsXSave != 0 <==> cr4 & Cr4OsXSave != 0 || CpuidBit(ecx1, 26)
    ensures Cr4Enabled(cr4, ecx1, edx1) & Cr4Pcide != 0 <==> cr4 & Cr4Pcide != 0 || CpuidBit(ecx1, 17)
    ensures Cr4Enabled(cr4, ecx1, edx1) & !(Cr4OsFxSr | Cr4OsXSave | Cr4Pcide) == cr4 & !(Cr4OsFxSr | Cr4OsXSave | Cr4Pcide)
  {
  }

  /** The frame `init_context` leaves in a new context: all zero but CR0 and CR4, read from the processor. */
  function InitialFrame(cr0: bv64, cr4: bv64): (f: InterruptFrame)
    ensures f.gpr.cr0 == cr0 && f.gpr.cr4 == cr4
    ensures f.(gpr := f.gpr.(cr0 := 0, cr4 := 0)) == ZeroFrame
  {
    ZeroFrame.(gpr := ZeroRegisters.(cr0 := cr0, cr4 := cr4))
  }

  /** The processor state context.c reads and writes. */
  class Processor {
    /** The feature record `ARC_CHECK_FEATURE` consults. */
    const features: ProcessorFeatures
    /** The FS base MSR (0xC0000100). */
    var fsBase: bv64
    var cr0: bv64
    var cr4: bv64
    /** The x87/SSE/AVX register state. */
    var ext: ExtState

    constructor (features: ProcessorFeatures, cr0: bv64, cr4: bv64, ext: ExtState)
      ensures this.features == features && this.cr0 == cr0 && this.cr4 == cr4 && this.ext == ext && fsBase == 0
    {
      this.features := features;
      this.cr0 := cr0;
      this.cr4 := cr4;
      this.ext := ext;
      fsBase := 0;
    }
  }

  /**
   * `context_set_proc_features`, given CPUID leaf 1's ECX and EDX and
   * leaf 7's ECX: ORs the flags into `features` one at a time, setting the
   * matching CR4 enable bit of the running processor for FXSAVE, XSAVE and
   * PCID; clears nothing; returns 0.
   */
  method SetProcFeatures(features: ProcessorFeatures, cpu: Processor, ecx1: bv32, edx1: bv32, ecx7: bv32)
    returns (rc: int)
    modifies features, cpu
    ensures rc == 0
    ensures features.proc0 == old(features.proc0) + Proc0Bits(ecx1, edx1)
    ensures features.paging == old(features.paging) + PagingBits(ecx1, ecx7)
    ensures cpu.cr4 == Cr4Enabled(old(cpu.cr4), ecx1, edx1)
    ensures cpu.fsBase == old(cpu.fsBase) && cpu.cr0 == old(cpu.cr0) && cpu.ext == old(cpu.ext)
  {
    EnableLeaf1(features, cpu, ecx1, edx1);
    features.proc0 := features.proc0 + ExtensionBits(ecx1, edx1);
    EnableLeaf7(features, ecx7);
    SaveFormSites(ecx1, edx1);
    rc := 0;
  }

  /** context.c:114-135: FXSAVE, XSAVE and PCID, each with its CR4 enable bit. */
  method EnableLeaf1(features: ProcessorFeatures, cpu: Processor, ecx1: bv32, edx1: bv32)
    modifies features, cpu
    ensures features.proc0 == old(features.proc0) + SaveFormBits(ecx1, edx1)
    ensures features.paging == old(features.paging) + (if CpuidBit(ecx1, 17) then {Pcid} else {})
    ensures cpu.cr4 == Cr4Enabled(old(cpu.cr4), ecx1, edx1)
    ensures cpu.fsBase == old(cpu.fsBase) && cpu.cr0 == old(cpu.cr0) && cpu.ext == old(cpu.ext)
  {
    EnableSaveForm(features, cpu, CpuidBit(edx1, 24), FxSaveFlag, Cr4OsFxSr);
    EnableSaveForm(features, cpu, CpuidBit(ecx1, 26), XSaveFlag, Cr4OsXSave);
    EnablePcid(features, cpu, CpuidBit(ecx1, 17));
  }

  /** One save form: when CPUID reports it, record the flag and set its CR4 enable bit. */
  method EnableSaveForm(features: ProcessorFeatures, cpu: Processor, reported: bool, flag: Proc0Flag, enable: bv64)
    modifies features, cpu
    ensures features.proc0 == old(features.proc0) + (if reported then {flag} else {})
    ensures cpu.cr4 == SetIf(old(cpu.cr4), reported, enable)
    ensures features.paging == old(features.paging)
    ensures cpu.fsBase == old(cpu.fsBase) && cpu.cr0 == old(cpu.cr0) && cpu.ext == old(cpu.ext)
  {
    if reported {
      features.proc0 := features.proc0 + {flag};
      cpu.cr4 := cpu.cr4 | enable;
    }
  }

  /** PCID: when CPUID reports it, record the paging flag and set CR4.PCIDE. */
  method EnablePcid(features: ProcessorFeatures, cpu: Processor, reported: bool)
    modifies features, cpu
    ensures features.paging == old(features.paging) + (if reported then {Pcid} else {})
    ensures cpu.cr4 == SetIf(old(cpu.cr4), reported, Cr4Pcide)
    ensures features.proc0 == old(features.proc0)
    ensures cpu.fsBase == old(cpu.fsBase) && cpu.cr0 == old(cpu.cr0) && cpu.ext == old(cpu.ext)
  {
    if reported {
      features.paging := features.paging + {Pcid};
      cpu.cr4 := cpu.cr4 | Cr4Pcide;
    }
  }

  /** context.c:158-168: PML5 and PKS from leaf 7. */
  method EnableLeaf7(features: ProcessorFeatures, ecx7: bv32)
    modifies features
    ensures features.paging == old(features.paging) + Leaf7PagingBits(ecx7)
    ensures features.proc0 == old(features.proc0)
  {
    if CpuidBit(ecx7, 16) {
      features.paging := features.paging + {Pml5};
    }
    if CpuidBit(ecx7, 31) {
      features.paging := features.paging + {Pks};
    }
  }

  /** `context_set_tcb`: the FS base and the context's TCB both become `tcb`. */
  method SetTcb(ctx: Context, cpu: Processor, tcb: bv64)
    modifies ctx, cpu
    ensures ctx.tcb == tcb && cpu.fsBase == tcb
    ensures ctx.frame == old(ctx.frame) && ctx.xsaveSpace == old(ctx.xsaveSpace)
    ensures cpu.cr0 == old(cpu.cr0) && cpu.cr4 == old(cpu.cr4) && cpu.ext == old(cpu.ext)
  {
    cpu.fsBase := tcb;
    ctx.tcb := tcb;
  }

  /** `context_get_tcb`. */
  method GetTcb(ctx: Context) returns (tcb: bv64)
    ensures tcb == ctx.tcb
  {
    tcb := ctx.tcb;
  }

  /**
   * `context_save`: copy the trap frame into the context, then save the
   * extended state into the context's area with XSAVE or FXSAVE, as the
   * processor's features decide.  A save needs an area; the source would
   * write through a null pointer.
   */
  method Save(ctx: Context, newFrame: InterruptFrame, cpu: Processor)
    requires Form(cpu.features.proc0) != NoSave ==> ctx.xsaveSpace != null
    modifies ctx, ctx.xsaveSpace
    ensures ctx.frame == newFrame && ctx.tcb == old(ctx.tcb) && ctx.xsaveSpace == old(ctx.xsaveSpace)
    ensures Form(cpu.features.proc0) != NoSave ==>
              ctx.xsaveSpace.image == SavedImage(Form(cpu.features.proc0), ctx.xsaveSpace.size, cpu.ext)
    ensures Form(cpu.features.proc0) == NoSave && ctx.xsaveSpace != null ==> ctx.xsaveSpace.image == old(ctx.xsaveSpace.image)
  {
    ctx.frame := newFrame;
    var form := Form(cpu.features.proc0);
    if form != NoSave {
      var area := ctx.xsaveSpace;
      area.image := SavedImage(form, area.size, cpu.ext);
    }
  }

  /**
   * `context_load`: the context's frame becomes the trap frame (returned
   * as `to`), the FS base becomes the TCB, and the extended state is
   * restored with XRSTOR or FXRSTOR by the same feature test as the save.
   */
  method Load(ctx: Context, cpu: Processor) returns (to: InterruptFrame)
    requires Form(cpu.features.proc0) != NoSave ==> ctx.xsaveSpace != null
    modifies cpu
    ensures to == ctx.frame && cpu.fsBase == ctx.tcb
    ensures Form(cpu.features.proc0) != NoSave ==> ctx.xsaveSpace != null && cpu.ext == Restored(Form(cpu.features.proc0), ctx.xsaveSpace.image)
    ensures Form(cpu.features.proc0) == NoSave ==> cpu.ext == old(cpu.ext)
    ensures cpu.cr0 == old(cpu.cr0) && cpu.cr4 == old(cpu.cr4)
  {
    to := ctx.frame;
    cpu.fsBase := ctx.tcb;
    var form := Form(cpu.features.proc0);
    if form != NoSave {
      cpu.ext := Restored(form, ctx.xsaveSpace.image);
    }
  }

  /**
   * A save followed, after any other code has run and changed the
   * extended state, by a load of the same context on a processor with the
   * same features: the load hands back the saved frame and the saved
   * extended state, provided the area holds a whole image.
   */
  method SwitchAway(ctx: Context, trapped: InterruptFrame, cpu: Processor, meanwhile: ExtState)
    returns (to: InterruptFrame)
    requires Form(cpu.features.proc0) != NoSave ==>
               (ctx.xsaveSpace != null && ctx.xsaveSpace.size >= ImageSize(Form(cpu.features.proc0)))
    modifies ctx, ctx.xsaveSpace, cpu
    ensures to == trapped && cpu.fsBase == ctx.tcb
    ensures Form(cpu.features.proc0) != NoSave ==> cpu.ext == old(cpu.ext)
  {
    Save(ctx, trapped, cpu);
    cpu.ext := meanwhile;
    to := Load(ctx, cpu);
  }

  /** Whether `init_context` returns a context, given which allocations succeed. */
  predicate InitSucceeds(proc0: set<Proc0Flag>, flags: set<ContextFlag>, contextAllocates: bool, areaAllocates: bool, sseAllocates: bool)
  {
    contextAllocates && (AreaSize(proc0) < 512 || areaAllocates) && (Floats !in flags || sseAllocates)
  }

  /**
   * `init_context`: a zeroed context with an extended-state area of
   * `AreaSize` zero bytes (none when neither save form is available) and
   * the processor's CR0/CR4 in its frame; with FLOATS, `init_sse` then
   * replaces the area by a 512-byte one and sets the SSE control bits.
   * Null when any allocation along the way fails.
   */
  method InitContext(cpu: Processor, flags: set<ContextFlag>, contextAllocates: bool, areaAllocates: bool, sseAllocates: bool)
    returns (ctx: Context?)
    ensures ctx != null <==> InitSucceeds(cpu.features.proc0, flags, contextAllocates, areaAllocates, sseAllocates)
    ensures ctx != null ==> fresh(ctx) && ctx.tcb == 0
    ensures ctx != null && Floats !in flags ==>
              ctx.frame == InitialFrame(cpu.cr0, cpu.cr4)
              && (AreaSize(cpu.features.proc0) == 0 ==> ctx.xsaveSpace == null)
              && (AreaSize(cpu.features.proc0) != 0 ==>
                    (ctx.xsaveSpace != null && fresh(ctx.xsaveSpace)
                     && ctx.xsaveSpace.size == AreaSize(cpu.features.proc0) && ctx.xsaveSpace.image == Zeroed))
    ensures ctx != null && Floats in flags ==>
              ctx.frame == Sse.SseFrame(InitialFrame(cpu.cr0, cpu.cr4))
              && ctx.xsaveSpace != null && fresh(ctx.xsaveSpace)
              && ctx.xsaveSpace.size == Sse.FxAreaSize && ctx.xsaveSpace.image == Zeroed
  {
    if !contextAllocates {
      return null;
    }
    var ret := new Context();
    var size := AreaSize(cpu.features.proc0);
    if size >= 512 {
      if !areaAllocates {
        return null;
      }
      var area := new ExtArea(size);
      ret.xsaveSpace := area;
    }
    ret.frame := InitialFrame(cpu.cr0, cpu.cr4);
    if Floats in flags {
      var rc := Sse.InitSse(ret, sseAllocates);
      if rc != 0 {
        return null;
      }
    }
    ctx := ret;
  }

  /** `uninit_context`: -1 for a null context, else 0 once the area and the context are released. */
  method UninitContext(ctx: Context?) returns (rc: int)
    ensures rc == (if ctx == null then -1 else 0)
  {
    if ctx == null {
      return -1;
    }
    rc := 0;
  }
}
