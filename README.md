# Arctan-OS x86-64 architecture layer, modelled in Dafny

This project models the x86-64 architecture layer of the Arctan-OS kernel (`Karch-x86-64`):

- the four-level page-table manager and its traversal callbacks;
- the boot IDT, the run-time IDT helpers and the early exception handlers;
- the interrupt entry stub with its `PUSH_ALL`/`POP_ALL` sequences, and the saved-register layouts;
- per-processor descriptors, the timer handler's context save/exchange/rotate logic and `init_smp`'s IPI order;
- execution contexts: feature detection, extended-state areas, SSE enablement, save and load;
- the I/O APIC redirection table and GSI routing, and the local APIC register encodings;
- the GDT, TSS descriptor and TSS;
- the PCID bitmap allocator;
- little-endian multi-byte port I/O.

Code that updates state in place is modelled by classes whose methods state the new state outright. Pure layouts and encoders are modelled by functions and lemmas. Hardware the code touches is a field of an object, for example the control registers, the FS base, the extended register state, the port space, the LAPIC window and the I/O APIC register file. Collaborators the code calls are inputs: the page allocator, `alloc`, the scheduler, the MADT enumeration and `pager_map`'s result. One module corresponds to each source file or header group:

| module | file |
|---|---|
| `Common` | shared integer widths and `Option` |
| `Pager` | pager.c |
| `GateLayout` | `ARC_IDTEntry` in interrupt.h and idt.c |
| `Interrupt` | interrupt.c |
| `GenericIsrs` | generic_isrs.c |
| `Idt` | idt.c |
| `Smp` | smp.c |
| `ContextLayout` | the structs of context.h |
| `TrapStub` | the stub in interrupt.h and the push/pop macros of context.h |
| `Sse` | sse.c |
| `Context` | context.c |
| `IoApic` | apic/io.c and apic/io.h |
| `Apic` | apic.c |
| `LocalApic` | apic/local.c and apic/local.h |
| `Gdt` | gdt.c and gdt.h |
| `Pcid` | pcid.c and pcid.h |
| `Port` | io/port.c |

## Model

| member | source | states |
|---|---|---|
| GateLayout.EntryLayout | src/c/include/arch/x86-64/interrupt.h:56-64 | the packed `ARC_IDTEntry` puts offset1, segment, ist, attrs, offset2, offset3 and reserved at bytes 0, 2, 4, 5, 6, 8 and 12, 16 bytes in all |
| GateLayout.InterruptGateAttrsDecode | src/c/interrupt.c:72 | attrs 0x8E is present, privilege level 0, type 0xE (a 64-bit interrupt gate) |
| GateLayout.Gate | src/c/interrupt.c:39-48 | the three offset pieces (16/16/32 bits) recombine to the handler address; segment, attrs and ist are stored as given and reserved is 0 |
| Interrupt.InstallIdtGate | src/c/interrupt.c:39-48 | entry `i` becomes the gate for the offset and no other entry of the table changes |
| Interrupt.HandlerEntry | src/c/interrupt.c:36-37 | a NULL handler gives an all-zero entry; otherwise the gate points at the handler with attrs 0x8E, segment 0x08 and ist 1 for a kernel handler, segment 0x18 and ist 0 for a user one |
| Interrupt.InterruptSet | src/c/interrupt.c:51-79 | vector 256 or above: -1 and the table unchanged (the bound is 256 whatever the table's size); otherwise only entry `number` changes, to HandlerEntry, in the given table or the loaded one when the handle is NULL, and the result is 0 |
| Interrupt.DynamicLimit | src/c/interrupt.c:111 | the 16-bit limit equals 16·count − 1 modulo 2^16 |
| Interrupt.InitDynamicInterrupts | src/c/interrupt.c:90-114 | NULL exactly when count < 32 or an allocation fails; the register block is freed exactly when only the entries allocation fails; on success `count` fresh zeroed entries, base = their address and limit = DynamicLimit(count) |
| Interrupt.FullTableLimit | src/c/interrupt.c:111 | a 256-entry table gets limit 0xFFF |
| GenericIsrs.ExceptionGate | src/c/generic_isrs.c:75-76 | the gate for an exception stub points at the stub with attrs 0x8E, the given segment and ist, reserved 0 |
| GenericIsrs.InitEarlyExceptions | src/c/generic_isrs.c:366-405 | NULL entries: -1 and nothing written; otherwise gates 0–31 each point at their own stub, entries 32 and above are untouched, result 0 |
| GenericIsrs.OnlyBreakpointReturns | src/c/generic_isrs.c:115-364 | among vectors 0–31 only the breakpoint handler (3) returns; only 3 and the page-fault handler (14) signal EOI, and 14 then hangs |
| Interrupt.IdtRegister.constructor | src/c/include/arch/x86-64/interrupt.h:66-69 | an IDT register with the given limit and base, paired with the entries the base points at |
| Gdt.RegisterLayout | src/c/include/arch/x86-64/gdt.h:88-95 | the TSS descriptor follows the eight 8-byte entries at byte 64, `reg` sits at byte 80, the structure is 90 bytes and the size init_gdt stores is 79 |
| Gdt.TssLayout | src/c/include/arch/x86-64/gdt.h:54-82 | rsp0 sits at byte 4, ist1 at byte 36 and the I/O-map base at byte 102 of the 104-byte TSS; its limit is 103 |
| Gdt.GdtGate | src/c/gdt.c:40-47 | the written entry's base fields hold `base`, its limit the low 20 bits of `limit`, its flags the low nibble of `flags`, and `access` is kept |
| Gdt.TssGate | src/c/gdt.c:50-59 | the TSS descriptor holds the 64-bit base, the 20-bit limit, the flags nibble and access; the reserved dword is left as it was |
| Gdt.InitialTss | src/c/gdt.c:81-86 | the TSS is all zero except rsp0 and ist1, whose low and high dwords recombine to the given values |
| Gdt.InitTss | src/c/gdt.c:73-91 | NULL exactly when the allocation fails; otherwise InitialTss |
| Gdt.InitialEntries | src/c/gdt.c:105-108 | entries 1–4 are flat (base 0, limit 0xFFFFF) with access 0x9A, 0x92, 0xF2, 0xFA and flags 0xA, 0xC, 0xC, 0xA; entries 0 and 5–7 are null |
| Gdt.GdtRegister.constructor | src/c/gdt.c:103 | the `memset` structure: null entries, null TSS descriptor, zero size and base |
| Gdt.GdtRegister.SetGdtGate | src/c/gdt.c:34-48 | an index of 8 or more changes nothing; otherwise only entry i changes, to GdtGate |
| Gdt.GdtRegister.SetTssGate | src/c/gdt.c:50-60 | only the TSS descriptor changes, to TssGate |
| Gdt.GdtRegister.UseTss | src/c/gdt.c:68-71 | the descriptor covers the TSS with limit 103, access 0x89 and flags 0, and the selector handed on is 64 |
| Gdt.InitGdt | src/c/gdt.c:93-114 | NULL exactly when the allocation fails; otherwise entries are InitialEntry, size 79 and base the structure's own address |
| Idt.Trap.ExceptionPreamble | src/c/idt.c:54-72 | for vectors 8, 10–14, 17 and 21 the error code is the word at rsp and rsp steps past it; otherwise the code is 0 and rsp stays; this matches exactly the exceptions for which the processor pushes an error code |
| Idt.Captured | src/c/idt.c:489-509 | every context field of the copy comes from the trapped registers and frame (rip from the frame), cr3 is kept |
| Idt.InstallRegs | src/c/idt.c:543-563 | after the switch the register block has `source`'s rip while rsp (the frame pointer), cs, rflags, ss and cr3 stay |
| Idt.InstallFrame | src/c/idt.c:549-563 | the frame takes rip, cs, rflags, rsp and ss from `source` |
| Idt.InstallThenCapture | src/c/idt.c:520-563 | switching to `source` makes the trapped state, as the return sees it, exactly `source`'s context |
| Idt.CaptureThenInstall | src/c/idt.c:489-563 | switching to a capture of the trapped state leaves the frame as it was and changes only regs.rip |
| Idt.HandlerOutcome | src/c/idt.c:174-716 | handlers 0–31 neither signal EOI nor return; handlers 32–50 do both |
| Idt.IrqHandler | src/c/idt.c:610-716 | handlers 33–50 return 0 after exactly one EOI write and change no other local APIC register |
| Idt.IdtTable.constructor | src/c/idt.c:149-164 | the static table: 256 null gates, limit and base 0 |
| Idt.IdtTable.InstallIdtGate | src/c/idt.c:718-726 | only entry i changes, to the gate for the offset with ist 1 |
| Idt.IdtTable.InitIdt | src/c/idt.c:728-792 | gates 0–50 point at their stubs with selector 0x08 and attrs 0x8E, gates 51–255 are untouched, the limit is 0xFFFF and the base the table's address |
| Idt.IdtLimitCoversTable | src/c/idt.c:784 | the 16-bit limit (256·16·16 − 1 truncated) still covers every vector's 16 bytes |
| Idt.SaveTrapped | src/c/idt.c:488-512 | with CTXSAVE set the descriptor's registers become the capture of the trapped state, otherwise they stay; CTXSAVE ends clear and nothing else changes |
| Idt.Exchange | src/c/idt.c:516-566 | the trap receives `source`'s context, the descriptor the trapped one (through smp_context_write), and CTXWRITE ends clear |
| Idt.Rotate | src/c/idt.c:575-582 | the last thread (if any) gets the descriptor's context, cr3 becomes the current process's tables, last := current, current := the new thread, and the new thread's context is returned |
| Idt.RearmTimer | src/c/idt.c:591-603 | the local APIC writes are RearmWrites: the count again in one-shot mode, the LVT entry and count when WTIMER is set; WTIMER ends clear |
| Idt.RewriteTimer | src/c/idt.c:596-601 | with WTIMER set the LVT timer entry (vector 32, the processor's mode) and the count are written and WTIMER is cleared; otherwise nothing is written |
| Idt.SwitchFlags | src/c/idt.c:511-516 | clearing CTXSAVE leaves the CTXWRITE test unchanged, and clearing both in turn equals clearing them together |
| Idt.ClearedBitStays | src/c/idt.c:516-566 | clearing CTXWRITE when the test found it clear changes no bit |
| Idt.Switch | src/c/idt.c:488-587 | the CTXSAVE step and then, with CTXWRITE set, the exchange with the descriptor; else, when the scheduler yields a thread, save-rotate-switch; else no change to the trap; CTXSAVE and CTXWRITE end clear |
| Idt.Dispatch | src/c/idt.c:514-587 | the same three cases after the CTXSAVE step, stated against the descriptor's registers at that point |
| Idt.Schedule | src/c/idt.c:567-585 | with CTXWRITE clear: a thread from sched_tick or else the current thread is switched to after the last one is saved; with neither, nothing changes |
| Idt.TimerTick | src/c/idt.c:474-608 | with no local APIC id only EOI and 0; otherwise the kernel tables are loaded, the context step runs, the timer is re-armed, EOI follows, and CTXSAVE, CTXWRITE and WTIMER end clear |
| Idt.Tick | src/c/idt.c:482-607 | the timer handler once the processor is known: the three context cases, then RearmWrites and one EOI, all three flags clear |
| Idt.TickFlags | src/c/idt.c:511-600 | clearing CTXSAVE and CTXWRITE leaves the WTIMER test as it was, and clearing WTIMER afterwards clears all three |
| Idt.Trap.constructor | src/c/idt.c:474-475 | the register block a handler is given and the frame its rsp points at, as given |
| Smp.ContextAndCr3Determine | src/c/smp.c:129-148 | the twenty copied fields together with cr3 determine the whole register record |
| Smp.CopyContext | src/c/smp.c:129-148 | the copy takes every one of the twenty context fields from the source and keeps cr3 |
| Smp.SaveAfterWrite | src/c/smp.c:124-183 | smp_context_save after smp_context_write returns exactly the twenty written fields |
| Smp.FieldsDetermine | src/c/smp.c:195-219 | the six argument registers, rsp and the remaining fields determine the whole record |
| Smp.SetArg | src/c/smp.c:198-205 | argument i lands in the i-th of rdi, rsi, rdx, rcx, r8, r9 and nowhere else |
| Smp.RegisterArgCount | src/c/smp.c:195 | the number of register arguments is min(argc, 6), and 0 for argc ≤ 0 |
| Smp.StackArgCount | src/c/smp.c:212 | register and stack arguments add up to argc (0 for negative argc) |
| Smp.ArgsRsp | src/c/smp.c:208-219 | with argc ≤ 6 rsp is unchanged |
| Smp.AddMod | src/c/smp.c:216-219 | reducing modulo 2^64 before and after an addition is reducing once |
| Smp.StackStores | src/c/smp.c:212-217 | there is one store per stack argument; extra argument k is stored 8·(k+1) bytes above the final rsp, as the System V AMD64 ABI (section 3.2.3) places memory arguments |
| Smp.PlaceArgs | src/c/smp.c:192-222 | the first min(argc, 6) arguments fill the argument registers in order, the rest of the registers keep their values, and rsp is ArgsRsp |
| Smp.RegisterArgs | src/c/smp.c:195-206 | the register loop yields PlaceArgs' argument registers and leaves rsp and all other fields alone |
| Smp.StackArgs | src/c/smp.c:212-217 | the stack loop makes exactly the stores StackStores lists, in order |
| Smp.ProcessorDescriptor.constructor | src/c/smp.c:69 | a zero-initialised entry of the processor list |
| Smp.ProcessorDescriptor.SysvSetArgs | src/c/smp.c:192-222 | returns 0; the registers become PlaceArgs, the stores are StackStores, and no other descriptor field changes |
| Smp.ProcessorDescriptor.Jmp | src/c/smp.c:224-240 | the arguments are placed, rip is the function, HOLD is clear, CTXWRITE is set, other flag bits and fields are kept, result 0 |
| Smp.ContextWrite | src/c/smp.c:124-153 | a null pointer gives 1 and no change; otherwise the descriptor's twenty context fields are copied in, cr3 is kept, CTXWRITE is set with the other bits kept, and 0 |
| Smp.ContextSave | src/c/smp.c:155-183 | a null pointer gives 1 and the block unchanged; otherwise the block gets the descriptor's twenty context fields, keeps its cr3, and 0 |
| Smp.StartupSequence | src/c/smp.c:321-337 | the IPIs are INIT assert, INIT de-assert and, only for version ≥ 0xA, two START assert IPIs with vector (code >> 12) & 0xFF; each is ICR high then ICR low |
| Smp.SendStartup | src/c/smp.c:319-337 | the local APIC receives exactly the StartupIpis writes and no other register changes |
| Smp.ProcessorList.constructor | src/c/smp.c:69-73 | the globals start with last_lapic 0, counter 0 and no boot processor |
| Smp.ProcessorList.Register | src/c/smp.c:266-269 | the ACPI ids are recorded, the previously registered descriptor's next is this processor, and it becomes the last one |
| Smp.ProcessorList.InitSmp | src/c/smp.c:264-356 | the processor is linked and recorded; on the boot processor INIT is set, it is recorded as boot processor and no IPI is sent; otherwise the startup IPIs are sent; the 32-bit counter grows by one; result 0 |
| Smp.Thread.constructor | src/c/idt.c:568-576 | a thread whose saved context is the given register block |
| Pager.WithForce4K | src/c/pager.c:388-401 | pager_fly_map's attributes always carry ARC_PAGER_4K |
| Pager.WithStepBits | src/c/pager.c:212-213 | RESV0 records whether a 1 GiB step is possible and RESV1 whether a 2 MiB step is |
| Pager.WithStepBitsKeepsOthers | src/c/pager.c:212-213 | recording the step choice changes no other attribute bit, ARC_PAGER_4K included |
| Pager.EntryBitsMeaning | src/c/pager.c:70-131 | present is always set; RW and US are set by their attributes or forced on above the AUTO_USRW_DISABLE level except on a large leaf; the PAT bits go to bits 2/3 and 7 (level 1) or 12 (levels 2–3); bit 7 marks a large leaf; bit 63 only when NX and the kernel's no-execute feature are both set; no other bit is ever set |
| Pager.EntryBitsAddressPart | src/c/pager.c:94-106 | at levels 2 and 3 PAT bit 2 lands at bit 12, inside ADDRESS_MASK, so it becomes part of a created directory entry's address |
| Pager.LoadStoreEntry | src/c/pager.c:188 | a stored entry is read back and every other entry of every table is unchanged |
| Pager.LoadZeroPage | src/c/pager.c:187 | after zeroing a frame all its entries read 0 and every other frame is unchanged |
| Pager.TableIndex | src/c/pager.c:148-149 | the index at each level is below 512 |
| Pager.IndexBits | src/c/pager.c:148-149 | the 9 index bits at a level are below 512 |
| Pager.CreatesOnlyAbsentEntries | src/c/pager.c:165-171 | a table is only created under an absent entry, above level 1 and without RESV2; an absent PML4 entry without RESV2 always gets one |
| Pager.GranuleFits | src/c/pager.c:206-284 | a step never exceeds the remaining size and keeps it a multiple of 4 KiB |
| Pager.SumAppend | src/c/pager.c:239-284 | the bytes of two runs of steps add up |
| Pager.ScheduleCovers | src/c/pager.c:206-284 | the steps of a page-multiple range add up to its size, each is 4 KiB, 2 MiB or 1 GiB, and 1 GiB only with the 1-GiB feature and without ARC_PAGER_4K |
| Pager.ScheduleForced4K | src/c/pager.c:207-210 | with ARC_PAGER_4K the range is walked in size/4096 steps of 4 KiB |
| Pager.Advance | src/c/pager.c:239-241 | one step lowers the remaining size by the step |
| Pager.WalkSnoc | src/c/pager.c:239-284 | the address after one more step is the previous one plus the step, modulo 2^64 |
| Pager.SumSnoc | src/c/pager.c:239-284 | one more step adds its size to the bytes walked |
| Pager.ScheduleAdvance | src/c/pager.c:206-284 | a pass's step moves from the schedule ahead to the steps taken |
| Pager.ProgressStart | src/c/pager.c:201-206 | before the loop no step is taken and the whole schedule lies ahead |
| Pager.ProgressStay | src/c/pager.c:218-280 | a failing pass leaves the position and the schedule where they were |
| Pager.ProgressStep | src/c/pager.c:233-284 | a successful pass adds its step to the steps taken |
| Pager.SizeAfterStep | src/c/pager.c:241-284 | the `size_t` subtraction is exact when the step fits and wraps above the old size otherwise |
| Pager.UnalignedSizeWraps | src/c/pager.c:282-284 | with 0x800 bytes left a 4 KiB step wraps the size to 2^64 − 0x800 instead of reaching 0 |
| Pager.TraverseDone | src/c/pager.c:206-287 | a traversal that ran to the end took exactly the schedule of the whole range |
| Pager.ScheduleByForce4K | src/c/pager.c:207-210 | the step choice depends on the attributes only through ARC_PAGER_4K |
| Pager.WithIndex | src/c/pager.c:222-275 | recording the index of a level keeps the walk and physical address |
| Pager.TableFailure | src/c/pager.c:218-273 | a failed get_page_table gives a code between −7 and −2 |
| Pager.CallbackFailure | src/c/pager.c:235-279 | a failed callback gives a code between −8 and −4 |
| Pager.CloneSource | src/c/pager.c:460-525 | the source entry clone copies, found by the destination walk's indices, is present with a non-zero frame when it exists |
| Pager.TableEffect | src/c/pager.c:143-192 | get_page_table on the state: −1 exactly when the entry needs a new table and the pool is empty, and then nothing changes; otherwise the level's index of the address; at most the pool's first page is taken, never at level 1; the free and flush logs are untouched |
| Pager.CallbackEffect | src/c/pager.c:302-525 | every callback returns 0, −1 or −2; −1 exactly at level 0; a failure changes neither the state nor info; −2 only from fly-map with an empty pool or from clone; the walk fields are kept |
| Pager.CallbackFrame | src/c/pager.c:302-525 | only fly-map takes a page (the first of the pool), only fly-unmap appends one frame to the free log, the flush log gains at most info->virtual and only when the destination is the loaded root, and only unmap changes info, only in its physical field |
| Pager.CloneAgrees | src/c/pager.c:460-525 | pager_clone_callback's outcomes (level 0: −1; an absent source level: 0 and nothing written; an occupied slot without OVW: −2; otherwise the source entry copied and invlpg logged) are exactly CallbackEffect's for clone |
| Pager.MapLevel | src/c/pager.c:233-278 | the callback runs at the PML3 for a 1 GiB step, the PML2 for 2 MiB, else the PML1, and at no level above |
| Pager.PassLevel | src/c/pager.c:207-278 | a pass maps at level 3, 2 or 1 exactly when its step is 1 GiB, 2 MiB or 4 KiB |
| Pager.DescendEffect | src/c/pager.c:215-280 | a descent keeps the walk fields and leaves every recorded index below 512 |
| Pager.DescendFrame | src/c/pager.c:215-280 | a descent returns 0 or a code between −8 and −2, only consumes the pool, appends to the free log only for fly-unmap and logs no invlpg unless the destination is the loaded root |
| Pager.DescendCodes | src/c/pager.c:218-280 | a failing descent names where it stopped: −2/−3/−5/−7 for the get_page_table of a level it passed through, −4/−6/−8 for the callback at the level it maps at; except for clone it fails only with an empty pool |
| Pager.DescendSucceeds | src/c/pager.c:215-280 | with at least `level` pages in the pool a descent other than clone returns 0 and takes at most `level` pages |
| Pager.StepEffect | src/c/pager.c:206-285 | a pass keeps the recorded indices and the source and destination tables |
| Pager.StepFacts | src/c/pager.c:206-285 | a pass records the step choice in RESV0/RESV1 and returns 0 or a code between −8 and −2; on success the size drops by the granule and virtual (and physical, except for unmap) advance by it modulo 2^64, on failure they stay; it only consumes the pool and keeps the logs as a descent does |
| Pager.StepKeepsForce4K | src/c/pager.c:212-213 | a pass never changes ARC_PAGER_4K |
| Pager.StepCodes | src/c/pager.c:206-280 | a failing pass's code is a descent failure from the PML4 at the level its granule maps at; except for clone only with an empty pool |
| Pager.StepSucceeds | src/c/pager.c:206-285 | with at least four pages in the pool a pass other than clone returns 0 and takes at most four |
| Pager.TraverseEffect | src/c/pager.c:206-287 | the loop returns 0 exactly when the size reaches 0, keeping the indices and the destination tables |
| Pager.TraverseFirst | src/c/pager.c:206-285 | the loop is its first pass and then the loop from that pass's result; a failing pass ends it with that pass's code and state, earlier passes not undone |
| Pager.ScheduleFirst | src/c/pager.c:206-284 | the schedule of a page-multiple size is its first granule followed by the schedule of the rest |
| Pager.PassProgress | src/c/pager.c:233-284 | a pass either leaves the position where it was or adds its granule to the steps taken |
| Pager.WalkAppend | src/c/pager.c:239-284 | walking two runs of steps one after the other is walking their concatenation |
| Pager.ProgressTrans | src/c/pager.c:206-285 | the progress of two runs of the loop composes, their steps concatenated |
| Pager.TraverseProgress | src/c/pager.c:206-287 | whatever the outcome, the loop's steps are a prefix of the schedule and virtual (and physical, except for unmap) advanced by exactly them |
| Pager.TraverseFrame | src/c/pager.c:206-287 | the loop only consumes the pool, appends to the free log only for fly-unmap and logs no invlpg unless the destination is the loaded root |
| Pager.TraverseCodes | src/c/pager.c:206-287 | a failing loop's code names the get_page_table or callback level where its last pass stopped; except for clone it fails only with an empty pool |
| Pager.TraverseSucceeds | src/c/pager.c:206-287 | with four pool pages per scheduled step a traversal other than clone returns 0 |
| Pager.IsSuffixTrans | src/c/pager.c:180 | page allocation only ever consumes the pool: the suffix relation is transitive |
| Pager.PageManager.constructor | src/c/pager.c:68 | empty memory, the given root and pool, no kernel tables recorded, empty logs |
| Pager.PageManager.AllocPage | src/c/pager.c:180-185 | an empty pool gives NULL and no change; otherwise its first page is taken |
| Pager.PageManager.Invalidate | src/c/pager.c:342-344 | invlpg of `virtual` is logged exactly when the destination tables are the loaded ones |
| Pager.PageManager.GetPageTable | src/c/pager.c:143-192 | NULL parent: −1; otherwise the level's index, with a zeroed table installed under the entry (frame OR entry bits) exactly when CreatesTable holds and a page is available, −1 when none is; present entries are never altered |
| Pager.PageManager.MapCallback | src/c/pager.c:302-314 | level 0: −1; otherwise the entry becomes physical OR the entry bits and one invlpg is logged when the destination is loaded |
| Pager.PageManager.UnmapCallback | src/c/pager.c:331-347 | the entry becomes 0; info->physical takes the entry's frame only while it is 0; invlpg as above |
| Pager.PageManager.FlyMapCallback | src/c/pager.c:366-386 | no free page: −2 and no change; otherwise the entry points at the fresh page with the entry bits |
| Pager.PageManager.FlyUnmapCallback | src/c/pager.c:403-416 | the entry's frame is freed and the entry becomes 0 |
| Pager.PageManager.SetAttrCallback | src/c/pager.c:432-445 | the entry keeps its ADDRESS_MASK bits and takes new entry bits |
| Pager.PageManager.CloneCallback | src/c/pager.c:460-525 | an absent source level is skipped with 0; a non-zero destination slot without OVW gives −2; otherwise the source entry is copied into the destination slot |
| Pager.PageManager.RunCallback | src/c/pager.c:235-278 | each callback returns 0, −1 or −2 and leaves exactly the tables, pool and logs CallbackEffect gives; only fly-map takes a page (the pool's first), only fly-unmap appends to the free log, the flush log gains at most info->virtual and only for the loaded root, and only unmap changes info (its physical field) |
| Pager.PageManager.Visit | src/c/pager.c:233-280 | the callback's failure becomes −4, −6 or −8 by level; success and the new tables, pool, logs and info are the callback's CallbackEffect |
| Pager.PageManager.Descend | src/c/pager.c:215-280 | one pass's descent from `level`: its code, tables, pool, logs and info are DescendEffect's; a failure is −2/−3/−5/−7 for the get_page_table level it stopped at or −4/−6/−8 for the callback level; the walk is kept and the pool only consumed |
| Pager.PageManager.DescendAt | src/c/pager.c:222-280 | once get_page_table has found the entry, the callback or the next level leaves exactly the state DescendEffect gives for the whole descent |
| Pager.PageManager.TraverseStep | src/c/pager.c:206-285 | the step is the granule for the remaining size; RESV0/RESV1 record the choice; on success virtual, physical (except for unmap) and size advance by it, on failure they stay; the code, tables, pool and logs are StepEffect's |
| Pager.PageManager.TraverseLoop | src/c/pager.c:206-287 | the while loop ends with the code, info, tables, pool and logs of TraverseEffect from the starting state |
| Pager.PageManager.Traverse | src/c/pager.c:201-288 | −1 exactly for NULL destination tables, with nothing changed; otherwise the outcome is TraverseEffect's: 0 with the whole schedule walked, or the code of the failing pass (the get_page_table or callback level it stopped at) with size left and the earlier passes' entries left in place; the steps taken are always a prefix of the schedule; except for clone a failure means the pool ran out, and with four pool pages per scheduled step a non-clone traversal returns 0 |
| Pager.PageManager.Target | src/c/pager.c:317-320 | NULL tables mean the loaded root |
| Pager.PageManager.Map | src/c/pager.c:316-329 | 0 or −1; the new tables, pool and logs are TraverseEffect's for the map callback over [virtual, virtual + size) from physical with the attributes, so every visited leaf gets physical OR the entry bits, with invlpg when the tables are loaded; 0 exactly when that traversal returns 0; −1 only once the pool has run out, and never when it holds four pages per scheduled step; on success the whole schedule for the attributes was walked |
| Pager.PageManager.Unmap | src/c/pager.c:349-364 | 0 or −1, attributes 0; the new tables, pool and logs are TraverseEffect's for the unmap callback, so every visited leaf gets 0; 0 exactly when that traversal returns 0; −1 only once the pool has run out, and never when it holds four pages per scheduled step; the physical address is reported exactly on success with a non-NULL out pointer, and it is the traversal's info->physical |
| Pager.PageManager.FlyMap | src/c/pager.c:388-401 | 0 or −1; the new tables, pool and logs are TraverseEffect's for the fly-map callback with ARC_PAGER_4K forced, so every visited leaf gets a fresh page from the pool with the entry bits; 0 exactly when that traversal returns 0; −1 only once the pool has run out, and never when it holds four pages per scheduled step; on success the range was walked in 4 KiB steps |
| Pager.PageManager.FlyUnmap | src/c/pager.c:418-430 | 0 or −1, attributes 0; the new tables, pool and logs are TraverseEffect's for the fly-unmap callback, so every visited leaf gets 0 and its frame goes to the free log; 0 exactly when that traversal returns 0; −1 only once the pool has run out, and never when it holds four pages per scheduled step; on success the whole schedule was walked |
| Pager.PageManager.SetAttr | src/c/pager.c:447-458 | 0 or −1; the new tables, pool and logs are TraverseEffect's for the set-attribute callback, so every visited leaf gets its ADDRESS_MASK bits with the new entry bits; 0 exactly when that traversal returns 0; −1 only once the pool has run out, and never when it holds four pages per scheduled step; on success the whole schedule for the attributes was walked |
| Pager.PageManager.Clone | src/c/pager.c:527-547 | 0 or −1, attributes 0; the source is `page_tables` (or the loaded tables) when `source` is non-zero and the loaded tables otherwise, the destination the other; the new tables, pool and logs are TraverseEffect's for the clone callback, so every visited leaf gets the source entry, except that a leaf whose source level is absent is skipped and an occupied one without OVW fails; 0 exactly when that traversal returns 0; on success the whole schedule was walked |
| Pager.PageManager.CreatePageTables | src/c/pager.c:290-300 | NULL exactly when no page is left; otherwise a fresh all-zero table |
| Pager.PageManager.SwitchToKernelPages | src/c/pager.c:549-554 | returns the previous root and loads the kernel's |
| Pager.PageManager.InitPager | src/c/pager.c:556-561 | records the loaded root as the kernel's and returns 0 |
| Pager.SwitchTwiceAfterInit | src/c/pager.c:549-561 | after init_pager, a first switch returns the boot root and a second one returns the same kernel root |
| Pcid.Not | src/c/pcid.c:26 | `~w` flips every bit |
| Pcid.Or | src/c/pcid.c:34 | `|` is bitwise or |
| Pcid.And | src/c/pcid.c:54 | `&` is bitwise and |
| Pcid.Low32 | src/c/pcid.c:26 | passing a `uint64_t` to `__builtin_ffs(int)` keeps its low 32 bits |
| Pcid.FfsFrom | src/c/pcid.c:26 | the scan from bit k answers 0 or a position above k |
| Pcid.FfsFromSpec | src/c/pcid.c:26 | the scan returns one plus the lowest set bit at or above k, and 0 exactly when there is none |
| Pcid.Ffs | src/c/pcid.c:26 | `__builtin_ffs` answers at most 32 |
| Pcid.FfsSpec | src/c/pcid.c:26-32 | `__builtin_ffs` returns one plus the lowest set bit, and 0 exactly when no bit is set |
| Pcid.IntShl1 | src/c/pcid.c:34 | the `int` `1 << x` has exactly bit x set |
| Pcid.IntNot | src/c/pcid.c:54 | the `int` `~v` flips each of its 32 bits |
| Pcid.Widen | src/c/pcid.c:34 | an `int` widened to `uint64_t` is sign-extended from bit 31 |
| Pcid.IntBit | src/c/pcid.c:34 | `1 << x` widened sets bit x alone, except that x = 31 sets bits 31–63 |
| Pcid.IntClearMask | src/c/pcid.c:54 | `~(1 << k)` widened clears bit k alone, except that k = 31 clears bits 31–63 |
| Pcid.ScanWord | src/c/pcid.c:20 | with `PCID_COUNT` unparenthesised (pcid.h:4) the word inspected is ((i + last_free) % 2) << 1, word 0 or word 2 |
| Pcid.Search | src/c/pcid.c:19-39 | the pick comes from one of the two passes, is below bit 32 and lies in that pass's word |
| Pcid.SearchFindsLowestFree | src/c/pcid.c:22-32 | the bit taken was clear and every lower bit of its word was set |
| Pcid.SearchNone | src/c/pcid.c:19-39 | nothing is found exactly when the low 32 bits of both inspected words are all set |
| Pcid.FreedClearsOneBit | src/c/pcid.c:54 | freeing an id whose bit is below 31 clears exactly bit pcid % 64 of word pcid / 64 |
| Pcid.TakenSetsBits | src/c/pcid.c:34 | taking sets exactly the picked bit, or bits 31–63 of the word for bit 31 |
| Pcid.InitialWord | src/c/pcid.c:70-72 | word 0 after init: bit 0 set, bits 1–15 clear, bits 16–63 as the allocation held them |
| Pcid.InitialBitmap | src/c/pcid.c:63-72 | init replaces word 0 by InitialWord and leaves words 1–63 as allocated |
| Pcid.AllocatedIdFreesWrongWord | src/c/pcid.c:19-54 | with word 0's low half full and last_free 0 the bit goes into word 2, the id returned is 64, and freeing 64 clears word 1, so the bit stays taken |
| Pcid.CorrectedIdFreesPick | src/c/pcid.c:19-54 | with the id built from the word actually used, freeing what was just taken restores the bitmap |
| Pcid.InitLeavesStaleWords | src/c/pcid.c:63-72 | from an allocation full of ones, word 2 stays full after init, so only word 0's bits are ever offered |
| Pcid.CorrectedInitialBitmap | src/c/pcid.c:63-72 | the bitmap init evidently intends has 64 words |
| Pcid.CorrectedInitialBitmapFree | src/c/pcid.c:63-72 | in it only PCID 0 is taken, and the first allocation returns PCID 1 |
| Pcid.PcidAllocator.constructor | src/c/include/arch/x86-64/smp.h:44-47 | a descriptor without a bitmap and last_free 0 |
| Pcid.PcidAllocator.Init | src/c/pcid.c:57-78 | −1 and no change without the PCID feature or on allocation failure; otherwise a fresh InitialBitmap, last_free 0 and 0 |
| Pcid.PcidAllocator.Allocate | src/c/pcid.c:8-44 | −1 without a bitmap; 0 and no change when the search finds nothing; otherwise the picked bit is taken, last_free becomes its word and the id is pass·64 + bit |
| Pcid.PcidAllocator.Mark | src/c/pcid.c:34 | the bitmap becomes Taken |
| Pcid.PcidAllocator.Free | src/c/pcid.c:46-55 | nothing without a bitmap; otherwise the bitmap becomes Freed |
| LocalApic.RegisterOffsets | src/c/apic/local.c:40-106 | the 16-byte slots put EOI at 0xB0, the spurious vector at 0xF0, ICR low/high at 0x300/0x310, the LVT timer at 0x320, the initial count at 0x380 and the divide configuration at 0x3E0, in a 0x400-byte window |
| LocalApic.FlagGroupsDisjoint | src/c/include/arch/x86-64/apic/local.h:32-46 | the delivery modes lie in bits 8–10, the destination modes in bit 11, the levels in bit 14, the triggers in bit 15 and the shorthands in bits 18–19; the fields are pairwise disjoint and clear of the vector byte |
| LocalApic.IcrLowRoundTrip | src/c/include/arch/x86-64/apic/local.h:32-46 | OR-ing a vector and one value from each group loses nothing: each part reads back through its mask |
| LocalApic.ZeroFlags | src/c/include/arch/x86-64/apic/local.h:32-42 | FIXED, PHYSICAL, DEASRT and EDGE are 0, so OR-ing them in changes nothing |
| LocalApic.TimerModesFit | src/c/include/arch/x86-64/apic/local.h:48-50 | ONESHOT, PERIODIC and TSC fit the 2-bit mode field |
| LocalApic.LvtTimer | src/c/apic/local.c:151-155 | the written value holds the vector in bits 0–7, mode & 3 in bits 17–18, the mask bit 16 clear and nothing else |
| LocalApic.DivideConfig | src/c/apic/local.c:173-177 | division bits 0–1 land in bits 0–1 and division bit 2 in bit 3, nothing else |
| LocalApic.GetId | src/c/apic/local.c:130-144 | −1 exactly when CPUID.1:EDX bit 9 is clear; otherwise bits 24–31 of CPUID.1:EBX |
| LocalApic.IpiWrites | src/c/apic/local.c:113-121 | two stores: destination << 24 to ICR high, then vector OR flags to ICR low |
| LocalApic.LocalApic.constructor | src/c/apic/local.c:40-106 | a register window with the given MSR and spurious register and all other registers 0 |
| LocalApic.LocalApic.Eoi | src/c/apic/local.c:108-111 | one write of 0 to the EOI register, nothing else changes |
| LocalApic.LocalApic.Ipi | src/c/apic/local.c:113-121 | ICR high gets the destination in bits 24–31 before ICR low gets vector OR flags; nothing else changes |
| LocalApic.LocalApic.IpiPoll | src/c/apic/local.c:123-128 | returns bit 12 (delivery status) of ICR low |
| LocalApic.LocalApic.SetupTimer | src/c/apic/local.c:151-155 | the LVT timer register becomes LvtTimer(vector, mode) and nothing else is written |
| LocalApic.LocalApic.TimerMask | src/c/apic/local.c:157-165 | only bit 16 of the LVT timer changes: set for a non-zero mask, clear otherwise |
| LocalApic.LocalApic.RefreshTimer | src/c/apic/local.c:167-171 | only the initial-count register is written |
| LocalApic.LocalApic.DivideTimer | src/c/apic/local.c:173-177 | only the divide-configuration register is written, with DivideConfig |
| LocalApic.LocalApic.InitLapic | src/c/apic/local.c:179-216 | returns GetId; with no APIC nothing changes; otherwise MSR bit 11 and spurious-vector bit 8 are set |
| Port.Next | src/c/io/port.c:4 | `port++` on a `uint16_t` wraps modulo 2^16 |
| Port.Offset | src/c/io/port.c:3-59 | the distance from p to q, counted with wrap-around, is below 2^16 and leads from p to q |
| Port.WordRoundTrip | src/c/io/port.c:3-15 | splitting a 16-bit value into its little-endian bytes and assembling them are inverse, both ways |
| Port.DwordRoundTrip | src/c/io/port.c:17-33 | the same for 32-bit values and 4 bytes |
| Port.QwordRoundTrip | src/c/io/port.c:35-59 | assembling the 8 little-endian bytes of a 64-bit value gives it back |
| Port.QwordBytesRoundTrip | src/c/io/port.c:35-59 | splitting the value assembled from 8 bytes gives the bytes back |
| Port.WordAssembly | src/c/io/port.c:9-12 | `res |= inb(..) << 8k`, from 0, is the little-endian value of the bytes read |
| Port.DwordAssembly | src/c/io/port.c:25-30 | the same for 4 bytes |
| Port.QwordAssembly | src/c/io/port.c:47-56 | the same for 8 bytes |
| Port.Store | src/c/io/port.c:3-44 | a run of byte writes keeps the 2^16-port space |
| Port.Load | src/c/io/port.c:8-59 | a run of byte reads yields n bytes |
| Port.StoreStep | src/c/io/port.c:4-5 | a run writes its first byte at p and the rest from the next port |
| Port.ReadAt | src/c/io/port.c:8-59 | the k-th byte read comes from port (port + k) mod 2^16 |
| Port.StoreAt | src/c/io/port.c:3-44 | after a run of writes a port holds the byte written at its offset if it lies in the run, its old byte otherwise |
| Port.LoadAt | src/c/io/port.c:8-59 | the k-th byte of a read run is the byte of port (p + k) mod 2^16 |
| Port.LoadStore | src/c/io/port.c:3-59 | reading back a run just written at the same port gives the bytes written |
| Port.StoreFrame | src/c/io/port.c:3-44 | a run of writes leaves every port outside it unchanged |
| Port.PortSpace.constructor | src/c/include/arch/x86-64/io/port.h:32-33 | a port space of 2^16 bytes |
| Port.PortSpace.Outb | src/c/include/arch/x86-64/io/port.h:32 | only port p changes, to v |
| Port.PortSpace.Inb | src/c/include/arch/x86-64/io/port.h:33 | returns the byte at port p |
| Port.PortSpace.Outw | src/c/io/port.c:3-6 | the low byte goes to port, the high byte to port + 1 (mod 2^16) |
| Port.PortSpace.Inw | src/c/io/port.c:8-15 | the result is the little-endian value of ports port and port + 1 |
| Port.PortSpace.Outd | src/c/io/port.c:17-22 | the 4 little-endian bytes go to 4 consecutive ports |
| Port.PortSpace.Ind | src/c/io/port.c:24-33 | the result is the little-endian value of 4 consecutive ports |
| Port.PortSpace.Outq | src/c/io/port.c:35-44 | the 8 little-endian bytes go to 8 consecutive ports |
| Port.PortSpace.Inq | src/c/io/port.c:46-59 | the result is the little-endian value of 8 consecutive ports |
| Port.WriteThenRead | src/c/io/port.c:3-59 | inw, ind and inq right after outw, outd and outq at the same port return the value written |
| TrapStub.SetAxOnlyAx | src/c/include/arch/x86-64/interrupt.h:48-49 | `mov ax, v` puts v in ax and keeps the other 48 bits of rax |
| TrapStub.FrameCsIsCsSlot | src/c/include/arch/x86-64/interrupt.h:49 | the word at rsp + 160 is the frame's cs slot |
| TrapStub.EntryStack | src/c/include/arch/x86-64/interrupt.h:46-47 | after the placeholder and PUSH_ALL, the block at rsp reads as an `ARC_InterruptFrame` holding the registers at entry, error 0 and the processor's iret frame |
| TrapStub.ExitStack | src/c/include/arch/x86-64/context.h:78-107 | a frame laid over the stack reads back as its register block, its cs slot and, above the 18 words, its error word and iret frame |
| TrapStub.Cpu.constructor | src/c/include/arch/x86-64/interrupt.h:44-54 | a processor state with the given stack, registers, selectors and GS state |
| TrapStub.Cpu.Push | src/c/include/arch/x86-64/context.h:33-53 | `push` puts the word on top and lowers rsp by 8, nothing else changes |
| TrapStub.Cpu.Pop | src/c/include/arch/x86-64/context.h:56-76 | `pop` returns the top word and raises rsp by 8, nothing else changes |
| TrapStub.Cpu.SwapGs | src/c/include/arch/x86-64/interrupt.h:49 | `swapgs` flips which GS base is active |
| TrapStub.Cpu.PushAll | src/c/include/arch/x86-64/context.h:32-53 | the block at the new rsp (144 bytes lower) is the `ARC_Registers` of the registers at entry, in the struct's field order; r15 is left holding cr0 |
| TrapStub.Cpu.PopAll | src/c/include/arch/x86-64/context.h:55-76 | every register, cr0, cr3 and cr4 included, takes the value in the block at rsp, which is popped |
| TrapStub.Cpu.SwapGsUnlessKernelCs | src/c/include/arch/x86-64/interrupt.h:49 | swapgs runs exactly when the frame's cs differs from the current cs |
| TrapStub.Cpu.SaveAll | src/c/include/arch/x86-64/interrupt.h:46-47 | the zero error placeholder and then PUSH_ALL, 152 bytes in all |
| TrapStub.Cpu.Enter | src/c/include/arch/x86-64/interrupt.h:46-50 | at the call the frame at rsp is the entry frame, rdi points at it, ss is 0x10, and GS is swapped exactly when the interrupted cs differs from the current one |
| TrapStub.Cpu.LoadKernelSs | src/c/include/arch/x86-64/interrupt.h:48 | ss becomes 0x10 through ax |
| TrapStub.Cpu.PointRdiAtFrame | src/c/include/arch/x86-64/interrupt.h:50 | rdi holds the address of the frame |
| TrapStub.Cpu.Handle | src/c/include/arch/x86-64/interrupt.h:50 | the handler leaves its frame at rsp and its own register values |
| TrapStub.Cpu.Leave | src/c/include/arch/x86-64/interrupt.h:51-53 | every register comes from the frame, rsp rises by 152 to the iret words, and GS is swapped exactly when the frame's cs differs from the current one |
| TrapStub.Interrupt | src/c/include/arch/x86-64/interrupt.h:44-54 | the handler sees the entry frame 152 bytes below rsp; at iretq every register is the handled frame's, rsp is back where the processor left it with the handled frame's iret words, and the two swapgs cancel whenever the handler keeps cs |
| ContextLayout.PushedBlockIsRegisters | src/c/include/arch/x86-64/context.h:32-97 | the push order is the reverse of the field order: after PUSH_ALL the 18 words at rsp read as exactly the registers pushed, and what lies past them is untouched |
| ContextLayout.RegistersBlockIsPushed | src/c/include/arch/x86-64/context.h:55-97 | a stack holding a register block is that block pushed onto what lies past it, so popping and pushing again restores the stack |
| ContextLayout.FrameImageRoundTrip | src/c/include/arch/x86-64/context.h:99-107 | a frame pushed in layout order reads back at rsp as that frame (error at +144, rip +152, cs +160, rflags +168, rsp +176, ss +184) above the 24 words |
| ContextLayout.ExtArea.constructor | src/c/context.c:229-230 | a fresh extended-state area of the given size, zeroed |
| ContextLayout.Context.constructor | src/c/context.c:216 | a context as `memset` leaves it: no area, TCB 0, zero frame |
| Sse.SseCr0 | src/c/sse.c:54-55 | EM (bit 2) is clear, MP (bit 1) is set, every other bit is kept |
| Sse.SseCr4 | src/c/sse.c:56-57 | OSXMMEXCPT (bit 10) is set, every other bit is kept |
| Sse.SseEditsIdempotent | src/c/sse.c:54-57 | applying the CR0 and CR4 edits twice equals applying them once |
| Sse.SseFrame | src/c/sse.c:54-57 | the frame's cr0 and cr4 get the SSE edits and nothing else in the frame changes |
| Sse.SseFrameIdempotent | src/c/sse.c:54-61 | a second init_sse leaves the frame's control registers as the first left them |
| Sse.InitSse | src/c/sse.c:41-62 | allocation failure: −3 and the context unchanged; otherwise 0, a fresh zeroed 512-byte area replaces whatever area was there, the frame gets the SSE edits and the TCB is kept |
| Context.ProcessorFeatures.constructor | src/c/context.c:107 | a feature record holding the given paging and processor flag sets |
| Context.Form | src/c/context.c:65-75 | XSAVE exactly when the XSAVE flag is present, FXSAVE exactly when only the FXSAVE flag is, otherwise no save |
| Context.AreaSize | src/c/context.c:218-227 | the area `init_context` sizes is exactly the image size of the form the save later picks (576 for XSAVE, 512 for FXSAVE, 0 for none) |
| Context.SavedImage | src/c/context.c:65-75 | a save keeps an intact image exactly when the area holds the whole image of its form; otherwise the image overruns the area |
| Context.Restored | src/c/context.c:82-92 | restoring an intact image in its own form gives back its state; an overrun or a form mismatch gives a garbled state |
| Context.RestoreAfterSave | src/c/context.c:61-94 | a restore in the form of the save, from an area large enough, returns the saved extended state |
| Context.FloatsAreaOverrunsXSave | src/c/context.c:220-221 | with XSAVE, the 512-byte area `init_sse` installs is smaller than the 576-byte image, and a save-then-restore through it is garbled |
| Context.XorMaskIsDifference | src/c/context.c:174-175 | `(needed ^ avl) & needed` keeps exactly the bits set in `needed` and clear in `avl` |
| Context.Missing | src/c/context.c:174-175 | the missing flags are exactly those needed and not available |
| Context.CheckFeatures | src/c/context.c:173-206 | −1 exactly when some needed paging flag is missing and PCID is not among the missing ones; 0 otherwise |
| Context.Proc0Ignored | src/c/context.c:194-205 | the processor flags never change the verdict |
| Context.NothingMissingPasses | src/c/context.c:177-178 | an available record with every needed paging flag passes |
| Context.MissingPcidExcuses | src/c/context.c:183-188 | a missing PCID lets the check pass, whatever else is missing |
| Context.MissingFlagFails | src/c/context.c:177-190 | a missing paging flag fails the check unless PCID is also missing |
| Context.SourceBit | src/c/context.c:115-156 | each processor flag is read from a bit position inside a 32-bit CPUID register |
| Context.SdmBit | src/c/context.c:139-156 | the architectural bit positions match the ones read, except SSE3, which leaf 1 reports in ECX bit 0 |
| Context.SaveFormSites | src/c/context.c:115-130 | FXSAVE is recorded exactly when EDX bit 24 is set and XSAVE exactly when ECX bit 26 is set |
| Context.SimdSites | src/c/context.c:139-144 | SSE and SSE2 are read from ECX bits 25 and 26; SSE3, SSSE3, SSE4.1 and SSE4.2 from EDX bits 1, 9, 19 and 20 |
| Context.PlatformSites | src/c/context.c:146-150 | TSC, APIC, MSR, CLFLUSH and SS are read from ECX bits 4, 9, 5, 19 and 27 |
| Context.ExtraSites | src/c/context.c:152-156 | VMX, x2APIC, hypervisor, AVX and RDRAND are read from EDX bits 5, 21, 31, 28 and 30 |
| Context.SdmSimdSites | src/c/context.c:139-144 | the corrected reading takes SSE and SSE2 from EDX and SSE3 to SSE4.2 from ECX |
| Context.SaveFormsAgree | src/c/context.c:115-130 | the source and the corrected reading record the same save-form flags |
| Context.SseMisreadFromEcx | src/c/context.c:139 | a processor reporting SSE in EDX bit 25 without ECX bit 25 is recorded without SSE, while the corrected reading records it |
| Context.PagingBits | src/c/context.c:132-168 | PCID is recorded exactly when leaf 1 ECX bit 17 is set, PML5 and PKS exactly when leaf 7 ECX bits 16 and 31 are set, and nothing else is |
| Context.Cr4EnabledBits | src/c/context.c:115-135 | OSFXSR, OSXSAVE and PCIDE are each set exactly when they were already set or their feature is reported; every other CR4 bit is kept |
| Context.InitialFrame | src/c/context.c:216-244 | a new context's frame is all zero except CR0 and CR4, which are read from the processor |
| Context.Processor.constructor | src/c/context.c:40-47 | a processor with the given feature record, control registers and extended state, FS base zero |
| Context.SetProcFeatures | src/c/context.c:107-171 | returns 0; the flags reported by CPUID are added to both words and none removed; CR4 gets exactly the enable bits for FXSAVE, XSAVE and PCID; nothing else on the processor changes |
| Context.EnableLeaf1 | src/c/context.c:115-137 | the FXSAVE, XSAVE and PCID flags are added as reported, each with its CR4 enable bit |
| Context.EnableSaveForm | src/c/context.c:115-130 | one save form: its flag and CR4 enable bit are set exactly when reported |
| Context.EnablePcid | src/c/context.c:132-137 | the PCID paging flag and CR4.PCIDE are set exactly when reported |
| Context.EnableLeaf7 | src/c/context.c:158-168 | PML5 and PKS are added exactly as leaf 7 reports them |
| Context.SetTcb | src/c/context.c:44-47 | the FS base and the context's TCB both become the given pointer; nothing else changes |
| Context.GetTcb | src/c/context.c:49-51 | returns the context's TCB |
| Context.Save | src/c/context.c:61-76 | the context's frame becomes the trap frame; the area holds the image of the processor's extended state in the form the features pick; without a save form the area is untouched |
| Context.Load | src/c/context.c:78-94 | returns the saved frame, sets the FS base to the TCB and restores the extended state from the area in the same form; without a save form the state is kept |
| Context.SwitchAway | src/c/context.c:61-94 | a save followed by a load on the same processor returns the trapped frame and the saved extended state, whatever ran in between, provided the area holds a whole image |
| Context.InitContext | src/c/context.c:208-253 | null exactly when an allocation fails; otherwise a fresh context with TCB 0, an area of `AreaSize` zero bytes (none without a save form) and the initial frame, or with FLOATS the 512-byte SSE area and the SSE control bits |
| Context.UninitContext | src/c/context.c:96-105 | −1 for a null context, 0 otherwise |
| Apic.IoApicElement.constructor | src/c/apic.c:39-45 | a descriptor holding the given controller, first GSI, maximum redirection entry and id |
| Apic.FirstCovering | src/c/apic.c:59-66 | the position of an element serving the GSI (`gsi <= line <= gsi + mre`, the sum wrapping at 32 bits) with no earlier element serving it |
| Apic.GsiEntry | src/c/apic.c:68-75 | the redirection entry has trigger, polarity and destination mode from flag bits 0, 1 and 2, vector `to_irq + 32` and destination `to_id` truncated to 8 bits, and every other field, the mask included, zero |
| Apic.Allocated | src/c/apic.c:104-109 | the descriptors allocated before the first failure: all earlier allocations succeeded and the next one failed |
| Apic.ReportedMre | src/c/apic.c:102 | the maximum redirection entry `init_ioapic` reports fits in 8 bits and is 0 when the mapping failed |
| Apic.Apic.constructor | src/c/apic.c:47 | the controller list starts empty |
| Apic.Apic.MapGsi | src/c/apic.c:49-80 | returns 0; the first controller serving the GSI gets the entry built from the arguments at index `gsi - gsi_base`, and that entry reads back as written |
| Apic.Apic.Lookup | src/c/apic.c:59-66 | the list walk stops at the first controller serving the GSI |
| Apic.Apic.InitApic | src/c/apic.c:82-129 | returns 0; one `smp_init_ap(id, uid, flags, 0xFF)` per LAPIC entry in order; one descriptor per I/O APIC, newest first, up to the first allocation failure, each carrying that controller's address, GSI, id and reported maximum entry; with no descriptor both 8259 mask ports get 0xFF, otherwise no port is written |
| Apic.Apic.AnnounceLapics | src/c/apic.c:85-93 | one `smp_init_ap` call per LAPIC entry, in MADT order, with version 0xFF |
| Apic.Apic.RecordIoApics | src/c/apic.c:95-120 | the descriptors are prepended newest first, stop at the first allocation failure, keep the old list behind them and leave every controller's registers as they were |
| IoApic.FieldWidthsFillOneWord | src/c/include/arch/x86-64/apic/io.h:37-48 | the packed redirection-table struct is exactly one 64-bit word |
| IoApic.Pack | src/c/include/arch/x86-64/apic/io.h:37-48 | each field sits at its bit range in the word: vector 0-7, delivery mode 8-10, destination mode 11, delivery status 12, polarity 13, remote IRR 14, trigger 15, mask 16, reserved 17-55, destination 56-63 |
| IoApic.UnpackPack | src/c/include/arch/x86-64/apic/io.h:37-48 | every entry reads back from its packed word unchanged |
| IoApic.PackUnpack | src/c/include/arch/x86-64/apic/io.h:37-48 | every 64-bit word is the packing of the entry it unpacks to |
| IoApic.LowRegister | src/c/apic/io.c:44 | the low register is `2 * idx + 0x10` taken modulo 2^32, always even |
| IoApic.HighRegister | src/c/apic/io.c:45 | the high register is the odd register right after the low one |
| IoApic.DoubleWraps | src/c/apic/io.c:44 | doubling commutes with the 32-bit wrap of the register number |
| IoApic.DisjointPairs | src/c/apic/io.c:44-45 | distinct table indices below 2^31 − 8 use disjoint register pairs |
| IoApic.StoreRedirElsewhere | src/c/apic/io.c:43-53 | writing an entry changes no register outside its pair |
| IoApic.JoinHalves | src/c/apic/io.c:47-59 | splitting a word into its two dwords and joining them gives the word back |
| IoApic.RedirReadAfterWrite | src/c/apic/io.c:43-60 | reading a redirection entry after writing it returns the value written |
| IoApic.RedirWriteKeepsOthers | src/c/apic/io.c:43-60 | writing one entry leaves every other entry reading as before |
| IoApic.MaxRedirEntry | src/c/apic/io.c:74 | the result fits in 8 bits and is bits 16-23 of IOAPICVER |
| IoApic.IoApic.constructor | src/c/include/arch/x86-64/apic/io.h:32-35 | a controller with the given register file, selector 0 and no bus traffic |
| IoApic.IoApic.ReadRegister | src/c/apic/io.c:31-34 | selects the register, then reads the window: returns the register's value, changes no register |
| IoApic.IoApic.WriteRegister | src/c/apic/io.c:36-41 | returns 0; selects the register, then writes the window: exactly that register takes the value |
| IoApic.IoApic.WriteRedirTbl | src/c/apic/io.c:43-53 | returns 0; the packed entry's low dword goes to register `0x10 + 2i`, then the high dword to `0x11 + 2i`, and the entry reads back as written |
| IoApic.IoApic.ReadRedirTbl | src/c/apic/io.c:55-60 | returns the low register ORed with the high register shifted up 32 bits, in either order of the two reads (the operands of `\|` are unsequenced in C), the bus log and selector matching the order taken; changes no register |
| IoApic.IoApic.InitIoApic | src/c/apic/io.c:62-75 | a mapping failure other than "already mapped" (−5) gives 0 without touching the controller; otherwise the maximum redirection entry field of IOAPICVER, read through register 1 |

## Left out

- Hardware semantics are not modelled, only their effects on modelled state. This covers CR loads, `invlpg` (a log), RDMSR/WRMSR, swapgs, CPUID (its words are inputs), the xsave/fxsave family (an image that restores or is garbled), `hlt`/`ARC_HANG` (a "hangs" outcome), `sti`/`cli`, and `iretq` (the stub's result is the stack at `iretq`).
- Diagnostic output is left out because it changes no modelled state: `ARC_DEBUG`, the register dumps, the framebuffer clear and `term_draw`.
- Concurrency is left out: every operation runs on one processor, without the panic, register or timer locks or the `smp_jmp` mutex.
- `free` and the memory it returns are left out: a freed object simply stops being used. Leaks on error paths are not tracked.
- Allocation outcomes are inputs, as booleans or a pool of pages. This covers `pmm_fast_page_alloc`, `pmm_low_alloc` and `alloc`.
- `pmm_fast_page_free` is a log of freed frames.
- The headers that give bit positions to `ARC_PAGER_*`, `ARC_PROC0_FLAG_*`, `ARC_CONTEXT_FLAG_*` and `ARC_SMP_FLAGS_*` (arch/pager.h, arch/context.h, arch/smp.h) are not part of this model. The same holds for util.h's `MASKED_READ`/`MASKED_WRITE`.
- The pager attribute bits are named constants (4K, US, RW, NX, OVW, RESV0-2, PAT, AUTO_USRW_DISABLE from bit 0 up).
- The processor and paging feature words and `init_context`'s flags are sets of named flags.
- The SMP flag bits come from the masks idt.c clears (context write bit 0, context save bit 1, timer rewrite bit 2).
- Smp.ProcessorList.InitSmp: HOLD and INIT are taken to be bits 3 and 4, because no file in this model fixes them.
- Smp.ProcessorDescriptor.Jmp: its flag ensures rely on HOLD being bit 3 (`HoldBit`), an assumption for the same reason.
- Smp.ProcessorDescriptor.SysvSetArgs and Smp.ProcessorDescriptor.Jmp require `argc - 6 < 2^28`. Above that, `delta * 8` overflows the C `int` at src/c/smp.c:219, which is undefined behaviour.
- Physical memory is total: a frame absent from the memory map reads as zeroes. As a result, `get_page_table` with RESV2 set under an absent entry reads a zero table at physical 0 instead of faulting.
- `pager_map`'s result inside `init_ioapic` and `init_lapic` is an input. `init_lapic` ignores it, as the source does.
- Pager.PageManager.Map, Pager.PageManager.Unmap, Pager.PageManager.FlyMap, Pager.PageManager.SetAttr, Pager.PageManager.FlyUnmap and Pager.PageManager.Clone give their new state as TraverseEffect of the state before. What a leaf receives is stated per callback in CallbackEffect and carried up through DescendEffect and StepEffect. No lemma summarises the final content of every leaf in the range, for the reason given under Pager.PageManager.Traverse below.
- Pager.PageManager.Unmap reports the traversal's final info->physical. No lemma gives that value in closed form (the first frame visited plus the bytes traversed).
- Pager.PageManager.Traverse: the traversal preconditions require a size that is a multiple of 4 KiB. Other sizes make `size -= step` wrap, which Pager.UnalignedSizeWraps exhibits.
- Pager.PageManager.Traverse: on failure the state is TraverseEffect's, which runs the completed passes and keeps what they wrote. No lemma shows that an entry written by an earlier pass still holds its value at the end, because the pool may hand a later pass a frame that is already in use.
- Apic.Apic.MapGsi requires a GSI that some I/O APIC covers, because the source dereferences a NULL cursor otherwise.
- Interrupt.InterruptSet requires that a dynamic table is large enough for the vector. The source bounds-checks against 256, not against the table's size.
- Pcid.PcidAllocator.Free and the bit helpers require bit positions below 32. The source shifts an `int`, and shifts of 31 or more are undefined in C.
- `init_smp`'s trampoline copy, its low-memory allocations and the spin-waits on delivery status and AP start-up are left out. Only the descriptor linking and the IPI order are modelled.
- `smp_hold`, `smp_move_ap_high_mem`, `smp_get_proc_desc` and `smp_switch_to_userspace` are left out. So are the `init_gdt`/`init_idt`/`init_syscall` calls an AP makes.
- `context_set_proc_desc` and `context_get_proc_desc` are left out: the GS base and the processor descriptor it points at are not modelled.
- `lapic_calibrate_timer` is left out because it is an empty stub.
- init_idt's 51 explicit gate installs and generic_isrs' 32 explicit installs are modelled as loops over the vectors. The stubs' addresses are an input table.
- info.c, syscall.c, start.c, floats.c and cmos.c are not part of this model. They hold CPUID queries with a hash that is not shown, print-only system calls with MSR writes, boot orchestration, a stale copy of `init_sse` using fields `ARC_Context` lacks, and two port accesses.

## Findings

| source | as written | input that shows it | evidently intended | confidence | as-written member | corrected member |
|---|---|---|---|---|---|---|
| src/c/pcid.c:19-54 | `pcid_allocate` sets a bit in word `((i + last_free) % 2) << 1` but returns `i * 64 + x`, so the id names a different word | bitmap with word 0's low 32 bits taken, `last_free` 0: the bit goes to word 2, the id is 64, and `pcid_free(64)` clears word 1 | the returned id is `word * 64 + x`, so freeing it clears the bit that was set | not executed | Pcid.AllocatedIdFreesWrongWord | Pcid.CorrectedIdFreesPick |
| src/c/pcid.c:63-72 | `memset(pcid_bmp, 0, PCID_COUNT / 64)` clears 2 bytes of the 512 allocated | an allocation that still holds ones: word 2 starts full and its ids are never offered | the whole bitmap is zeroed, then PCID 0 is reserved | not executed | Pcid.InitLeavesStaleWords | Pcid.CorrectedInitialBitmapFree |
| src/c/context.c:139-144 | SSE and SSE2 are read from ECX bits 25-26, and SSE3 to SSE4.2 from EDX bits 1, 9, 19 and 20 | CPUID.1 with EDX = 0x0200_0000 (SSE) and ECX = 0: the SSE flag is not recorded | SSE/SSE2 from EDX bits 25-26; SSE3/SSSE3/SSE4.1/SSE4.2 from ECX bits 0, 9, 19 and 20 | not executed | Context.SseMisreadFromEcx | Context.SdmSimdSites |
