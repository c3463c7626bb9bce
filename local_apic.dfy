/**
 * The local APIC (apic/local.c, apic/local.h): the memory-mapped register
 * window, the LVT-timer, divide-configuration and interrupt-command (ICR)
 * encodings, and the CPUID-based id query.  The register layout follows
 * the APIC chapter of the Intel SDM Vol. 3 (the ICR is section 11.6.1 in
 * the numbering local.c cites).
 */
module LocalApic {
  /** Each register sits in its own 16-byte slot; the window is 64 slots, 0x400 bytes. */
  const SlotSize: nat := 16
  const Slots: nat := 64

  /** Slot numbers of the registers the kernel touches, in `ARC_LAPICReg` declaration order. */
  const EoiSlot: nat := 11
  const SpuriousSlot: nat := 15
  const IcrLowSlot: nat := 48
  const IcrHighSlot: nat := 49
  const LvtTimerSlot: nat := 50
  const InitCountSlot: nat := 56
  const DivConfSlot: nat := 62

  function Offset(slot: nat): nat
  {
    slot * SlotSize
  }

  /** The offsets the SDM gives: EOI 0xB0, spurious vector 0xF0, ICR 0x300/0x310, LVT timer 0x320, initial count 0x380, divide 0x3E0; the window is 0x400 bytes. */
  lemma RegisterOffsets()
    ensures Offset(EoiSlot) == 0xB0 && Offset(SpuriousSlot) == 0xF0
    ensures Offset(IcrLowSlot) == 0x300 && Offset(IcrHighSlot) == 0x310 && Offset(LvtTimerSlot) == 0x320
    ensures Offset(InitCountSlot) == 0x380 && Offset(DivConfSlot) == 0x3E0 && Offset(Slots) == 0x400
  {
  }

  /** `ARC_LAPIC_IPI_*`: ICR-low flag values. */
  const Fixed: bv32 := 0x000
  const LowestPriority: bv32 := 0x100
  const Smi: bv32 := 0x200
  const Nmi: bv32 := 0x400
  const Init: bv32 := 0x500
  const Start: bv32 := 0x600
  const Physical: bv32 := 0
  const Logical: bv32 := 0x800
  const Deassert: bv32 := 0
  const Assert: bv32 := 0x4000
  const Edge: bv32 := 0
  const Level: bv32 := 0x8000
  const ToSelf: bv32 := 0x4_0000
  const AllExcludingSelf: bv32 := 0x8_0000
  const AllIncludingSelf: bv32 := 0xC_0000

  /** The ICR-low fields the flag groups occupy. */
  const DeliveryModeMask: bv32 := 0x700
  const DestModeMask: bv32 := 0x800
  const LevelMask: bv32 := 0x4000
  const TriggerMask: bv32 := 0x8000
  const ShorthandMask: bv32 := 0xC_0000

  predicate IsDeliveryMode(d: bv32) { d in {Fixed, LowestPriority, Smi, Nmi, Init, Start} }
  predicate IsDestMode(m: bv32) { m == Physical || m == Logical }
  predicate IsLevel(l: bv32) { l == Deassert || l == Assert }
  predicate IsTrigger(t: bv32) { t == Edge || t == Level }
  predicate IsShorthand(s: bv32) { s in {0, ToSelf, AllExcludingSelf, AllIncludingSelf} }

  /** Each group lies inside its own field, the fields are disjoint, and none reaches the vector byte. */
  lemma FlagGroupsDisjoint()
    ensures forall d :: IsDeliveryMode(d) ==> d & DeliveryModeMask == d
    ensures forall m :: IsDestMode(m) ==> m & DestModeMask == m
    ensures forall l :: IsLevel(l) ==> l & LevelMask == l
    ensures forall t :: IsTrigger(t) ==> t & TriggerMask == t
    ensures forall s :: IsShorthand(s) ==> s & ShorthandMask == s
    ensures DeliveryModeMask & DestModeMask == 0 && DeliveryModeMask & LevelMask == 0
    ensures DeliveryModeMask & TriggerMask == 0 && DeliveryModeMask & ShorthandMask == 0
    ensures DestModeMask & LevelMask == 0 && DestModeMask & TriggerMask == 0 && DestModeMask & ShorthandMask == 0
    ensures LevelMask & TriggerMask == 0 && LevelMask & ShorthandMask == 0 && TriggerMask & ShorthandMask == 0
    ensures (DeliveryModeMask | DestModeMask | LevelMask | TriggerMask | ShorthandMask) & 0xFF == 0
  {
  }

  /** OR-ing one value from each group with a vector loses nothing: every part can be read back. */
  lemma IcrLowRoundTrip(vector: bv8, d: bv32, m: bv32, l: bv32, t: bv32, s: bv32)
    requires IsDeliveryMode(d) && IsDestMode(m) && IsLevel(l) && IsTrigger(t) && IsShorthand(s)
    ensures var icr := vector as bv32 | d | m | l | t | s;
            icr & 0xFF == vector as bv32 && icr & DeliveryModeMask == d && icr & DestModeMask == m &&
            icr & LevelMask == l && icr & TriggerMask == t && icr & ShorthandMask == s
  {
  }

  /** The zero members of each group (FIXED, PHYSICAL, DEASRT, EDGE) change nothing when OR-ed in. */
  lemma ZeroFlags(x: bv32)
    ensures x | Fixed == x && x | Physical == x && x | Deassert == x && x | Edge == x
  {
  }

  /** `ARC_LAPIC_TIMER_*`. */
  const OneShot: bv8 := 0
  const Periodic: bv8 := 1
  const TscDeadline: bv8 := 2

  /** The three timer modes fit the 2-bit field lapic_setup_timer masks with. */
  lemma TimerModesFit()
    ensures OneShot & 3 == OneShot && Periodic & 3 == Periodic && TscDeadline & 3 == TscDeadline
  {
  }

  /** The LVT-timer value lapic_setup_timer writes: the vector, the mode at bits 17-18, the mask bit 16 clear. */
  function LvtTimer(vector: bv8, mode: bv8): (v: bv32)
    ensures v & 0xFF == vector as bv32 && (v >> 17) & 3 == (mode & 3) as bv32 && (v >> 16) & 1 == 0
    ensures v & !0x6_00FF == 0
  {
    vector as bv32 | (((mode & 3) as bv32) << 17)
  }

  /** The divide-configuration value: division bits 0-1 at bits 0-1, division bit 2 at bit 3. */
  function DivideConfig(division: bv8): (v: bv32)
    ensures v & 3 == (division & 3) as bv32 && (v >> 3) & 1 == ((division >> 2) & 1) as bv32
    ensures v & !0xB == 0
  {
    ((division & 3) | (((division >> 2) & 1) << 3)) as bv32
  }

  /** lapic_get_id: -1 when CPUID.1:EDX bit 9 (APIC on chip) is clear, else bits 24-31 of CPUID.1:EBX. */
  function GetId(edx: bv32, ebx: bv32): (id: int)
    ensures id == -1 <==> (edx >> 9) & 1 == 0
    ensures id != -1 ==> 0 <= id < 256 && id == ((ebx >> 24) & 0xFF) as int
  {
    if (edx >> 9) & 1 == 0 then -1 else ((ebx >> 24) & 0xFF) as int
  }

  /** One store into the register window: the byte offset and the value. */
  datatype Write = Write(offset: nat, value: bv32)

  /**
   * The two stores one lapic_ipi makes: the destination to ICR high, then
   * vector | flags to ICR low (the store that sends the IPI).
   */
  function IpiWrites(vector: bv8, destination: bv8, flags: bv32): (w: seq<Write>)
    ensures |w| == 2 && w[0].offset == Offset(IcrHighSlot) && w[1].offset == Offset(IcrLowSlot)
    ensures (w[0].value >> 24) as bv8 == destination && w[0].value & 0xFF_FFFF == 0
    ensures w[1].value & !0xFF == flags & !0xFF
    ensures flags & 0xFF == 0 ==> w[1].value & 0xFF == vector as bv32
  {
    [Write(Offset(IcrHighSlot), (destination as bv32) << 24), Write(Offset(IcrLowSlot), vector as bv32 | flags)]
  }

  /** The register window of the current processor and the IA32_APIC_BASE MSR, with the stores made so far. */
  class LocalApic {
    var msr: bv64
    var eoi: bv32
    var spurious: bv32
    var icrLow: bv32
    var icrHigh: bv32
    var lvtTimer: bv32
    var initCount: bv32
    var divConf: bv32
    var log: seq<Write>

    constructor (msr: bv64, spurious: bv32)
      ensures this.msr == msr && this.spurious == spurious && log == []
      ensures eoi == 0 && icrLow == 0 && icrHigh == 0 && lvtTimer == 0 && initCount == 0 && divConf == 0
    {
      this.msr := msr;
      this.spurious := spurious;
      eoi, icrLow, icrHigh, lvtTimer, initCount, divConf := 0, 0, 0, 0, 0, 0;
      log := [];
    }

    /** lapic_eoi: write 0 to the EOI register. */
    method Eoi()
      modifies this
      ensures eoi == 0 && log == old(log) + [Write(Offset(EoiSlot), 0)]
      ensures msr == old(msr) && spurious == old(spurious) && icrLow == old(icrLow) && icrHigh == old(icrHigh)
      ensures lvtTimer == old(lvtTimer) && initCount == old(initCount) && divConf == old(divConf)
    {
      eoi := 0;
      log := log + [Write(Offset(EoiSlot), 0)];
    }

    /** lapic_ipi: the destination goes to ICR high (bits 24-31) before vector | flags goes to ICR low, which sends. */
    method Ipi(vector: bv8, destination: bv8, flags: bv32)
      modifies this
      ensures icrHigh == (destination as bv32) << 24 && icrLow == vector as bv32 | flags
      ensures log == old(log) + IpiWrites(vector, destination, flags)
      ensures msr == old(msr) && eoi == old(eoi) && spurious == old(spurious)
      ensures lvtTimer == old(lvtTimer) && initCount == old(initCount) && divConf == old(divConf)
    {
      icrHigh := (destination as bv32) << 24;
      log := log + [Write(Offset(IcrHighSlot), icrHigh)];
      icrLow := vector as bv32 | flags;
      log := log + [Write(Offset(IcrLowSlot), icrLow)];
    }

    /** lapic_ipi_poll: the delivery-status bit 12 of ICR low. */
    method IpiPoll() returns (pending: int)
      ensures pending == ((icrLow >> 12) & 1) as int && (pending == 0 || pending == 1)
    {
      pending := ((icrLow >> 12) & 1) as int;
    }

    /** lapic_setup_timer: the LVT-timer register becomes LvtTimer(vector, mode). */
    method SetupTimer(vector: bv8, mode: bv8)
      modifies this
      ensures lvtTimer == LvtTimer(vector, mode) && log == old(log) + [Write(Offset(LvtTimerSlot), lvtTimer)]
      ensures msr == old(msr) && eoi == old(eoi) && spurious == old(spurious) && icrLow == old(icrLow)
      ensures icrHigh == old(icrHigh) && initCount == old(initCount) && divConf == old(divConf)
    {
      lvtTimer := LvtTimer(vector, mode);
      log := log + [Write(Offset(LvtTimerSlot), lvtTimer)];
    }

    /** lapic_timer_mask: set the mask bit 16 when `mask` is non-zero, clear it otherwise; the vector and mode stay. */
    method TimerMask(mask: bv8)
      modifies this
      ensures (lvtTimer >> 16) & 1 == (if mask != 0 then 1 else 0)
      ensures lvtTimer & !0x1_0000 == old(lvtTimer) & !0x1_0000
      ensures log == old(log) + [Write(Offset(LvtTimerSlot), lvtTimer)]
      ensures msr == old(msr) && eoi == old(eoi) && spurious == old(spurious) && icrLow == old(icrLow)
      ensures icrHigh == old(icrHigh) && initCount == old(initCount) && divConf == old(divConf)
    {
      if mask != 0 {
        lvtTimer := lvtTimer | (1 << 16);
      } else {
        lvtTimer := lvtTimer & !(1 << 16);
      }
      log := log + [Write(Offset(LvtTimerSlot), lvtTimer)];
    }

    /** lapic_refresh_timer: only the initial-count register is written. */
    method RefreshTimer(count: bv32)
      modifies this
      ensures initCount == count && log == old(log) + [Write(Offset(InitCountSlot), count)]
      ensures msr == old(msr) && eoi == old(eoi) && spurious == old(spurious) && icrLow == old(icrLow)
      ensures icrHigh == old(icrHigh) && lvtTimer == old(lvtTimer) && divConf == old(divConf)
    {
      initCount := count;
      log := log + [Write(Offset(InitCountSlot), count)];
    }

    /** lapic_divide_timer: the divide-configuration register becomes DivideConfig(division). */
    method DivideTimer(division: bv8)
      modifies this
      ensures divConf == DivideConfig(division) && log == old(log) + [Write(Offset(DivConfSlot), divConf)]
      ensures msr == old(msr) && eoi == old(eoi) && spurious == old(spurious) && icrLow == old(icrLow)
      ensures icrHigh == old(icrHigh) && lvtTimer == old(lvtTimer) && initCount == old(initCount)
    {
      divConf := DivideConfig(division);
      log := log + [Write(Offset(DivConfSlot), divConf)];
    }

    /**
     * init_lapic, with the CPUID.1 words as inputs: -1 with nothing changed
     * when there is no APIC; otherwise set the global-enable bit 11 of the
     * APIC-base MSR and the software-enable bit 8 of the spurious-vector
     * register, and return the id.
     */
    method InitLapic(edx: bv32, ebx: bv32) returns (id: int)
      modifies this
      ensures id == GetId(edx, ebx)
      ensures id == -1 ==> msr == old(msr) && spurious == old(spurious) && log == old(log)
      ensures id != -1 ==> msr == old(msr) | 0x800 && spurious == old(spurious) | 0x100
      ensures id != -1 ==> log == old(log) + [Write(Offset(SpuriousSlot), spurious)]
      ensures eoi == old(eoi) && icrLow == old(icrLow) && icrHigh == old(icrHigh)
      ensures lvtTimer == old(lvtTimer) && initCount == old(initCount) && divConf == old(divConf)
    {
      id := GetId(edx, ebx);
      if id == -1 {
        return;
      }
      msr := msr | (1 << 11);
      spurious := spurious | (1 << 8);
      log := log + [Write(Offset(SpuriousSlot), spurious)];
    }
  }
}
