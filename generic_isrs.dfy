/**
 * The early exception handlers (generic_isrs.c): installing gates 0-31 in
 * a caller's table, and what each handler does once it runs.
 */
module GenericIsrs {
  import opened GateLayout
  import Interrupt

  /** Exception vectors 0-31, one `_idt_stub_N` each. */
  const ExceptionVectors: nat := 32

  /** The gate GENERIC_HANDLER_INSTALL writes for vector v with stub address `stub`. */
  function ExceptionGate(stub: bv64, segment: bv16, ist: bv8): (e: IdtEntry)
    ensures GateOffset(e) == stub && e.segment == segment && e.attrs == InterruptGateAttrs && e.ist == ist
    ensures e.reserved == 0
  {
    Gate(stub, segment, InterruptGateAttrs, ist)
  }

  /**
   * internal_init_early_exceptions: -1 with nothing written when `entries`
   * is null; otherwise gates 0-31 point at their own stubs (`stubs[v]` is
   * the address of `_idt_stub_v`), entries from 32 on are untouched, and
   * the result is 0.
   */
  method InitEarlyExceptions(entries: array?<IdtEntry>, stubs: seq<bv64>, kcodeSeg: bv16, ist: bv8)
    returns (rc: int)
    requires |stubs| == ExceptionVectors
    requires entries != null ==> entries.Length >= ExceptionVectors
    modifies entries
    ensures entries == null ==> rc == -1
    ensures entries != null ==> rc == 0 && entries[32..] == old(entries[32..])
    ensures entries != null ==> forall v :: 0 <= v < ExceptionVectors ==> entries[v] == ExceptionGate(stubs[v], kcodeSeg, ist)
  {
    if entries == null {
      return -1;
    }
    var v := 0;
    while v < ExceptionVectors
      invariant 0 <= v <= ExceptionVectors
      invariant entries[32..] == old(entries[32..])
      invariant forall u :: 0 <= u < v ==> entries[u] == ExceptionGate(stubs[u], kcodeSeg, ist)
    {
      Interrupt.InstallIdtGate(entries, v, stubs[v], kcodeSeg, InterruptGateAttrs, ist);
      v := v + 1;
    }
    return 0;
  }

  /** How a handler ends: whether it signals EOI to the local APIC, and whether it returns or hangs. */
  datatype Outcome = Outcome(eoi: bool, resumes: bool)

  /**
   * What handler v does after its register dump: the breakpoint handler (3)
   * signals EOI and returns; the page-fault handler (14) signals EOI and
   * then hangs, its mapping branch being commented out; every other
   * exception hangs without EOI.
   */
  function ExceptionOutcome(v: nat): (o: Outcome)
    requires v < ExceptionVectors
  {
    if v == 3 then Outcome(true, true)
    else if v == 14 then Outcome(true, false)
    else Outcome(false, false)
  }

  /** Of the 32 exception vectors only the breakpoint handler returns, and only 3 and 14 signal EOI. */
  lemma OnlyBreakpointReturns()
    ensures forall v :: 0 <= v < ExceptionVectors ==> (ExceptionOutcome(v).resumes <==> v == 3)
    ensures forall v :: 0 <= v < ExceptionVectors ==> (ExceptionOutcome(v).eoi <==> v == 3 || v == 14)
  {
  }
}
