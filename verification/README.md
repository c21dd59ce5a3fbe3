# AV6 kernel: verified model

AV6 is a small SMP kernel for AArch64.  This project models its allocators, protocols and
data structures in Dafny and proves what they are for.  Sizes the code leaves to the machine
(number of CPUs, of ASIDs, of processes, of interrupt sources, of ring slots, of pages) are
symbolic, so each result covers all of them.

Code that several CPUs interleave is a step system: a state, the atomic steps of any CPU, an
inductive invariant, and theorems about every state of every run.  Code that runs under one
lock or before the other CPUs start is imperative: classes and arrays updated in place, each
method proved against a specification function or predicate, and theorems about those.

| files | what they hold |
|---|---|
| `AsidProtocol`, `AsidSafety`, `AsidExact`, `AsidAllocator` | the rolling-generation ASID allocator: lockless fast path, rollover, TLBs |
| `SchedProtocol`, `SchedSafety`, `SchedFamily`, `SchedWakeup`, `SchedIntr`, `SchedTheorems`, `SchedKill`, `SchedExact`, `SchedCalls` | scheduling, sleep and wakeup, exit, wait, kill, fork and the interrupt threads on many CPUs |
| `ProcTable` | pid and stack-slot bitmaps, process list and pid hash |
| `PageTree`, `Pmap` | user page tables as trees, and the code that walks, maps, unmaps, copies, grows and frees them |
| `DirectMap` | the kernel's direct map of RAM |
| `Regions`, `Physmem`, `Kalloc` | region lists, free segments, the page descriptor array and the free list |
| `Slab`, `SlabLayout` | magazines, depot and slabs; object layout |
| `Kmalloc` | the three layers together: kmalloc, kfree, reclaim, and who owns which page |
| `MessageLog`, `Kmsg`, `Console` | the kernel message ring as a bounded queue, and its console reader |
| `FdtTokens`, `FdtTree`, `FdtReader` | the device-tree reader against the flattening of the Devicetree Specification v0.4, section 5.4 |
| `ExecStack` | the initial user stack of exec and its decoding |
| `Wrappers`, `Lists`, `Bytes` | shared small definitions |

Four properties are false of the code.  For each there is an input or a run at which it fails
and a theorem that says exactly when it holds.

- The comment in `physmem.h` says that a bank is never silently dropped.  A bank whose end
  wraps past 2^64 is, and one inside the last page of the address space is recorded as all
  memory below that page (`src/vm/physmem.c:124-129`; `Physmem.BankExactIff`).
- An exclusion that ends in the last page is lost, because rounding its end up wraps to 0
  (`src/vm/physmem.c:145-150`; `Physmem.SpentCoveredIff`).
- A cache with an alignment above a page is accepted and puts its objects outside the slab
  page (`src/vm/slab.c:135-137`; `SlabLayout.InPageIff`).
- A killed process can sleep in wait: a kill between the killed() test and the sleep only
  marks it (`src/kern/proc.c:554-558`; `SchedKill.KilledAsleepIff`).

## Model

| member | source | states |
|---|---|---|
| AsidSafety.AsidSafe | src/arch/asid.c:160-318 | in every state of every interleaving of fast paths, slow paths, rollovers, flushes and table walks: no two processes hold the same generation and number; no two CPUs run under one number, even across generations; every translation a CPU can use under its number was walked from its own process's tables after that process's latest flush |
| AsidSafety.NeverExhausted | src/arch/asid.c:227-233 | after a rollover a free number always exists when CPUs + 1 < number of ASIDs, so the assertion cannot fail |
| AsidSafety.StepKeeps | src/arch/asid.c:253-305 | each of the 17 atomic steps, by any CPU, keeps the invariant |
| AsidSafety.RunInv | src/arch/asid.c:106-138 | the invariant holds along every run from the initial state |
| AsidSafety.FastPathKeeps | src/arch/asid.c:272-277 | a compare-exchange that succeeds installs a context no other CPU's number collides with, although the generation was read earlier |
| AsidSafety.ExchangeKeeps | src/arch/asid.c:168-177 | exchanging one slot to 0 in the middle of a rollover keeps the invariant while the other CPUs go on |
| AsidSafety.BumpKeeps | src/arch/asid.c:183-188 | announcing the new generation with all flushes pending keeps it |
| AsidSafety.DrainPendingKeeps | src/arch/asid.c:288-297 | doing the pending local flush keeps it |
| AsidSafety.AsidFlushKeeps | src/arch/asid.c:313-318 | a broadcast flush by the running process keeps it and starts a new epoch |
| AsidSafety.NewContextGrants | src/arch/asid.c:196-238 | what new_context gives is current, nobody else's, and marked in the bitmap |
| AsidExact.ExamineExact | src/arch/asid.c:196-238 | over every run, what the slow path gives: a current context stays; a stale one whose number a CPU carried over the rollover, or whose number is free, keeps the number under the new generation, with hint unmoved and the reservations renewed; any other gets the first clear number from the hint, wrapping to 1; a rollover starts only when no number is clear |
| AsidExact.ExchangeExact | src/arch/asid.c:168-177 | one turn of the rollover empties one slot and reserves and marks what it held, or else what was reserved before |
| AsidExact.BumpExact | src/arch/asid.c:183-188 | the generation advances by one, every CPU owes a flush, the hint starts over |
| AsidExact.AfterRolloverExact | src/arch/asid.c:227-237 | the number taken after a rollover is the least one no CPU carried over |
| AsidExact.FastPathExact | src/arch/asid.c:258-277 | undisturbed, the lockless path is taken exactly when the slot is in use and the context is current, and touches that slot alone |
| AsidExact.ExchangeWins | src/arch/asid.c:272-277 | disturbed, the compare-exchange wins exactly if the slot still holds what was read; otherwise the lock is taken |
| AsidExact.SlowPathExact | src/arch/asid.c:288-304 | from the context to the running process: a flush that was owed is done, and only then; the slot, the lock and TTBR0 are set |
| AsidProtocol.FindZero | src/arch/asid.c:66-83 | the result is the first clear bit from the hint on, else the first from 1 on, or the total exactly when every bit from 1 on is set |
| AsidSafety.RebindCarries | src/arch/asid.c:92-104 | renewing a carried context frees no number and takes none: the reservations mark the same numbers, the stale context is reserved nowhere, and the renewed one exactly if the stale one was |
| AsidAllocator.Allocator.BitmapFindZero | src/arch/asid.c:66-83 | the two scan loops compute FindZero of the bitmap |
| AsidAllocator.Allocator.CheckUpdateReserved | src/arch/asid.c:92-104 | the loop performs Rebind in place and reports whether any slot matched |
| AsidAllocator.Allocator.FlushContext | src/arch/asid.c:160-189 | every active slot is 0 and pending, every reserved slot carries the active or the old reserved context, and the bitmap is exactly the carried numbers with 0 |
| AsidAllocator.Allocator.Rollover | src/arch/asid.c:227-233 | flushing and rescanning finds a free number |
| AsidAllocator.Allocator.NewContextFor | src/arch/asid.c:196-238 | the in-place code gives what the atomic step of the protocol gives, in the kept, re-marked, fresh and rolled-over cases; AsidExact.ExamineExact says what that is |
| SchedTheorems.OnePlace | src/kern/proc.c:89-108 | in every reachable state a process is queued at most once, is current on at most one CPU, is dequeued by at most one, and only one of these |
| SchedTheorems.RunnableIffQueued | src/kern/proc.c:369-399 | with its lock free, a process is RUNNABLE exactly when it is queued or just dequeued |
| SchedTheorems.DispatchFindsRunnable | src/kern/proc.c:369-399 | the scheduler's not-RUNNABLE branch is dead |
| SchedTheorems.FirstInFirstOut | src/kern/proc.c:89-108 | over any stretch of any run, the process at position k of the queue is at position k - m after m dequeues, whoever joined meanwhile |
| SchedKill.KilledAsleepIff | src/kern/proc.c:554-558 | over every run: a process asleep in wait is marked killed if and only if a kill fell between its killed() test and the sleep it is still in |
| SchedKill.KillCanBeMissed | src/kern/proc.c:509-560 | a run from boot, of 18 steps on two CPUs, that ends with a killed process asleep in wait |
| SchedKill.KillStep | src/kern/proc.c:573-594 | a kill marks its target, and the target goes on to sleep exactly if it had passed the test and not yet taken its lock |
| SchedKill.QuietStep | src/kern/proc.c:355-655 | no other step marks or unmarks a process or puts a marked one on its way to sleep in wait |
| SchedExact.SleepExact | src/kern/proc.c:429-464 | over every run, on any channel: a sleeper becomes RUNNABLE, at the tail of the queue, exactly by a kill or by the visit of a wakeup on its channel, and otherwise sleeps on; nobody falls asleep but by its own doing, on the channel it chose |
| SchedExact.VisitExact | src/kern/proc.c:573-594 | a kill or a visit changes its target alone, and nothing at all when it does not wake, but for the mark that a kill always sets |
| SchedExact.SchedulingTransparent | src/kern/proc.c:403-427 | where a process stands in its program changes only by a step of its own; preemption, dispatch, interrupts and the steps of others leave it |
| SchedCalls.LifeExact | src/kern/proc.c:355-507 | over every run, the state of every process follows the diagram, each arrow taken by exactly its step: publication, dispatch, yield, sleep, wakeup or kill, exit |
| SchedCalls.CallExact | src/kern/proc.c:429-560 | through sleeps, preemption and wakeups, true or spurious, a process stays in its call: sleep on a condition returns only when the condition holds, wait only by freeing a child, failing to copy its status, or giving up, exit never |
| SchedCalls.TablesExact | src/kern/proc.c:509-655 | a process comes by allocproc and goes by freeproc, is listed by being published and unlisted as a zombie its parent finds; a condition is set by its interrupt and reset by whom it lets pass; nothing else changes these |
| SchedTheorems.ParentsAlive | src/kern/proc.c:466-507 | a parent is in the list, alive and not freed, in every reachable state |
| SchedExact.ParentExact | src/kern/proc.c:259-275 | over every run, a forked child's parent is the process that forked it, a kernel thread has none, and a link changes only when the parent exits, and then to init |
| SchedExact.KidsExact | src/kern/proc.c:517-553 | over every run, wait's havekids holds exactly if a child is among the processes passed, and after the scan exactly if there is a child at all |
| SchedExact.GivesUpChildless | src/kern/proc.c:554-558 | a process that is not killed gives up only without a child, and goes to sleep only with one |
| SchedTheorems.ReapedOnce | src/kern/proc.c:509-560 | a process is freed only as a zombie, by its own parent, when no CPU is on its stack or refers to it in any way, and was never freed before |
| SchedTheorems.FreedStaysFreed | src/kern/proc.c:236-251 | a freed process never comes back in the rest of the run |
| SchedTheorems.NoLostExit | src/kern/proc.c:429-560 | whenever wait_lock is free, no process sleeping in wait has a zombie child |
| SchedTheorems.NoLostCondition | src/kern/proc.c:429-464 | a process asleep on a condition that holds is still to be visited by a waker |
| SchedTheorems.ExactlyOnce | src/kern/intr.c:121-146 | per source, scheduled interrupts equal deactivations plus one while active; handler runs lie between; at most one thread serves it and a pending flag is never lost |
| SchedTheorems.StepKeeps | src/kern/proc.c:355-655 | every step of scheduler, sleep, wakeup, exit, wait, kill, fork and interrupts keeps the whole invariant |
| SchedTheorems.RunInv | src/kern/proc.c:355-655 | the invariant holds along every run |
| SchedSafety.DispatchCore | src/kern/proc.c:355-401 | taking the lock of a dequeued process and switching to it keeps places, locks and queue consistent |
| SchedSafety.SleepReleaseCore | src/kern/proc.c:429-445 | releasing the caller's lock and becoming SLEEPING under the process's own lock keeps them |
| SchedSafety.WakeCore | src/kern/proc.c:447-464 | waking one process keeps them |
| SchedFamily.ExitBeginFamily | src/kern/proc.c:481-491 | reparenting leaves the exiting process without children, all of them with a live parent |
| SchedFamily.ExitZombieFamily | src/kern/proc.c:497-505 | becoming a zombie under wait_lock leaves no process with a zombie parent |
| SchedFamily.UnlinkFamily | src/kern/proc.c:529-544 | unlinking a zombie child keeps the family relations, with the zombie in one CPU's hands |
| SchedFamily.FreedElsewhere | src/kern/proc.c:236-251 | nothing refers to the zombie that is about to be freed: no CPU, queue, list walk, parent or maker link |
| SchedFamily.ActivateFamily | src/kern/proc.c:259-275 | publishing a built process gives it a live parent |
| SchedWakeup.SleepReleaseWakeful | src/kern/proc.c:429-445 | going to sleep loses no wakeup that was due |
| SchedWakeup.ExitVisit1Wakeful | src/kern/proc.c:447-464 | a wakeup's walk over the process list wakes whom it owes |
| SchedWakeup.ExitZombieWakeful | src/kern/proc.c:492-501 | a zombie appears only after its parent was woken under wait_lock |
| SchedWakeup.RaiseWakeful | src/kern/intr.c:136-140 | setting the pending flag puts the wakeup on the raising CPU's account |
| SchedIntr.ConsumeJobs | src/kern/intr.c:54-60 | taking the pending flag puts the interrupt in one thread's hands |
| SchedIntr.DeactivateJobs | src/kern/intr.c:62-64 | deactivation follows exactly one handler run |
| ProcTable.TakeBit | src/kern/proc.c:66-78 | the lowest clear bit is taken, or no bit is clear |
| ProcTable.SlotsOutlastPids | src/arch/pmap.c:469-482 | while a pid is free a stack slot is free, so allocproc's second failure branch is dead |
| ProcTable.Table.constructor | src/kern/proc.c:132-154 | nobody lives and pid 0 is taken |
| ProcTable.Table.Allocproc | src/kern/proc.c:176-229 | the lowest free pid with a stack slot nobody has, or, exactly when a resource is missing, all tables as before |
| ProcTable.Table.Freeproc | src/kern/proc.c:236-251 | exactly the process's pid and slot become free |
| ProcTable.Table.Link | src/kern/proc.c:259-275 | list and hash agree with the process in both |
| ProcTable.Table.Unlink | src/kern/proc.c:540-544 | list and hash agree without it |
| ProcTable.Table.PidLookup | src/kern/proc.c:111-122 | the one listed process with that pid, or none exactly when there is none |
| PageTree.UnmapExact | src/arch/pmap.c:748-815 | the translation of every page: none inside the range, as before outside |
| PageTree.RemovedUnreachable | src/arch/pmap.c:748-815 | a physical page that was mapped in the range is not reachable afterwards |
| PageTree.UnmapTidy | src/arch/pmap.c:796-809 | no table left in a tidy tree is empty |
| PageTree.TidyMapsSomething | src/arch/pmap.c:796-809 | a table that survives still maps a page |
| PageTree.UnmapApart | src/arch/pmap.c:748-815 | no physical page becomes reachable twice |
| PageTree.InsertLeafLookup | src/arch/pmap.c:562-593 | a new leaf changes the translation of its own page alone |
| Pmap.Memory.UnmapRange | src/arch/pmap.c:748-815 | the recursion in place leaves exactly the unmapped tree, adds exactly the pages no longer reachable to the free set, each once, keeps the root, and touches no page outside the tree |
| Pmap.Memory.Collapse | src/arch/pmap.c:796-809 | a child table is freed exactly when all its entries are zero |
| Pmap.Memory.Freewalk | src/arch/pmap.c:874-899 | every reachable page is freed exactly once |
| Pmap.Memory.Uvmfree | src/arch/pmap.c:901-904 | the same from the root, also after a partial copy |
| Pmap.Memory.Ptalloc | src/arch/pmap.c:500-512 | a zeroed page, or nothing exactly when none is free |
| Pmap.Memory.Walk | src/arch/pmap.c:522-552 | no translation changes; the slot returned decides the page's translation; failure means the page is unmapped |
| Pmap.Memory.MapPage | src/arch/pmap.c:562-593 | one page is added, or no translation changes; pages are conserved |
| Pmap.Memory.Mappages | src/arch/pmap.c:562-593 | consecutive pages are added, as many as succeeded, pages conserved |
| Pmap.Memory.Uvmcopy | src/arch/pmap.c:644-681 | same pages, bits and contents on pages that were free; the source is untouched; it fails only with fewer than four free pages per page to copy, and then the table is still well formed |
| Pmap.ForkComplete | src/kern/proc.c:618-655 | copying the pages below the size copies the whole address space, and the child's size bounds the child's pages |
| Pmap.Memory.Uvmalloc | src/arch/pmap.c:696-724 | zeroed user pages up to the new size, or, only with fewer than four free pages per new page, the translations as before; pages conserved |
| Pmap.UserPageFields | src/include/arch/mmu.h:222-223 | the fields of PAGE_USER: a valid page of tagged normal memory, RW for kernel and user, inner shareable, accessed, not executable by the kernel |
| Pmap.RolledBack | src/arch/pmap.c:707-720 | cutting what was grown restores every translation |
| Pmap.Memory.Uvmdealloc | src/arch/pmap.c:834-850 | exactly the pages between the rounded sizes lose their translation |
| Pmap.CutExact | src/arch/pmap.c:834-850 | unmapping from the root is that cut |
| Pmap.Memory.Growproc | src/kern/proc.c:657-678 | every mapped page stays below the rounded size; failure changes no translation and comes only from lack of pages or from shrinking below 0 |
| DirectMap.Identity | src/arch/pmap.c:102-130 | whatever the tables map in a RAM slot translates to itself |
| DirectMap.KernelMap.DmapL2 | src/arch/pmap.c:86-100 | the L2 table of the slot, new or old, with no translation changed and no entry in use overwritten |
| DirectMap.KernelMap.DmapPage | src/arch/pmap.c:102-112 | exactly one page is added, no entry in use overwritten |
| DirectMap.KernelMap.DmapBlock2m | src/arch/pmap.c:114-119 | exactly the 2 MB at an aligned address are added, no entry in use overwritten |
| DirectMap.KernelMap.DmapBlock1g | src/arch/pmap.c:121-129 | the same for 1 GB |
| DirectMap.KernelMap.DmapBank | src/arch/pmap.c:139-175 | the five loops add exactly the bank, for any page-aligned bounds, with the largest blocks there are: every whole 1 GB of it is one block, every other whole 2 MB is one; the panics come exactly for banks outside the RAM slots |
| DirectMap.KernelMap.DmapBanks | src/arch/pmap.c:188-218 | for any sorted, disjoint banks, every page of every bank translates to itself and no other RAM-slot page translates at all; every bank has the largest blocks there are |
| Regions.Canonical | src/vm/physmem.c:14-16 | lists in normal form that cover the same addresses are equal |
| Regions.MergeExact | src/vm/physmem.c:41-69 | absorbing a run of touched entries is the union, in normal form |
| Regions.MergeUpper | src/vm/physmem.c:41-69 | the grown entry swallows exactly the entries it reaches and the rest moves down |
| Regions.InsertRegion | src/vm/physmem.c:75-116 | the list stays sorted, disjoint and non-touching and covers exactly the union; it is refused, unchanged, exactly when full and untouched by the range |
| Physmem.PhysicalMap.HardwareRegion | src/vm/physmem.c:119-137 | the banks grow by exactly the whole pages recorded |
| Physmem.PhysicalMap.ExcludeRegion | src/vm/physmem.c:140-158 | the exclusions grow by exactly the pages recorded |
| Physmem.BankExactIff | src/vm/physmem.c:124-129 | exactly the whole pages of a bank are recorded, if and only if the two sums do not wrap (or both do and nothing is left) |
| Physmem.SpentCoveredIff | src/vm/physmem.c:145-150 | all of an exclusion is recorded if and only if it is empty or rounding its end up does not wrap |
| Physmem.BankDropped | src/vm/physmem.c:124-129 | every bank whose end wraps while its rounded start does not is dropped |
| Physmem.BankHuge | src/vm/physmem.c:124-129 | every bank inside the last page, past its start, is recorded as all memory below that page |
| Physmem.SpentDropped | src/vm/physmem.c:145-150 | every exclusion that ends inside the last page is dropped |
| Physmem.WrapWitnesses | src/vm/physmem.c:119-158 | one input for each of the three failures |
| Physmem.PhysicalMap.IsExcluded | src/vm/physmem.c:160-175 | true exactly when some address of the range is excluded; a range whose end wraps is found exactly when one exclusion spans from the wrapped end to the start |
| Physmem.PhysicalMap.Carve | src/vm/physmem.c:211-244 | one bank minus the exclusions is added to the segments, and each split is charged to an exclusion of its own |
| Physmem.PhysicalMap.Avail | src/vm/physmem.c:202-245 | the segments are in normal form and cover exactly banks minus exclusions, in at most hwcnt + excnt segments, so the overflow panic is dead |
| Physmem.PublishedUnique | src/vm/physmem.c:195-201 | the segments depend only on the sets recorded, so recomputation, order and overlap do not matter |
| Physmem.PhysicalMap.SegOf | src/vm/physmem.c:247-258 | the only segment that holds the address, or none exactly when it is not free memory |
| Kalloc.PhysmemSize | src/vm/physmem.c:260-271 | the number of bytes in the segments |
| Kalloc.LessBytes | src/vm/kalloc.c:110-117 | a list that covers less has fewer bytes, so an array sized before the exclusion is large enough after it |
| Kalloc.CarveArray | src/vm/kalloc.c:118-146 | the array lies in free memory, has a descriptor for every page that stays, and what stays is exactly the free memory without it; the exclusion never wraps |
| Kalloc.SlicesDisjoint | src/vm/kalloc.c:150-156 | no descriptor belongs to two segments |
| Kalloc.PageOfInverse | src/vm/kalloc.c:62-92 | an address has one descriptor and a descriptor one page |
| Kalloc.PageAllocator.PaToPage | src/vm/kalloc.c:62-71 | a descriptor inside the array exactly for the addresses of the segments |
| Kalloc.PageAllocator.PageToPa | src/vm/kalloc.c:77-92 | the page of any descriptor in use; the scan never falls through |
| Kalloc.PageAllocator.FillFreelist | src/vm/kalloc.c:158-171 | every page of every segment is on the free list once, flagged free with count 0 |
| Kalloc.PageAllocator.KpageFree | src/vm/kalloc.c:178-202 | the assertions pass exactly on the address of a page in hand, which then is free and nothing else changes |
| Kalloc.PageAllocator.FreelistPop | src/vm/kalloc.c:204-220 | a free page leaves the list, none exactly when the list is empty |
| Kalloc.PageAllocator.KpageAlloc | src/vm/kalloc.c:222-236 | a page of the segments that was free, none only when no page is free |
| Kalloc.PageAllocator.SetSlab | src/vm/kalloc.c:95-101 | exactly that page becomes a slab page |
| Kalloc.PageAllocator.IsSlab | src/vm/kalloc.c:103-108 | true exactly when the page that holds the address is a slab page |
| Slab.Cache.constructor | src/vm/slab.c:117-150 | an empty cache is valid |
| Slab.Cache.SlabAlloc | src/vm/slab.c:204-234 | one object not in use before is in use, the slab sits on the list its count says; a page is taken only when every slot is used, failure only when moreover no page comes |
| Slab.Cache.SlabFree | src/vm/slab.c:237-261 | the assertions pass exactly for a slot in use of a slab of this cache, which then is no longer in use, and lists follow the counts |
| Slab.Cache.AllocTurn | src/vm/slab.c:286-315 | one turn of the loop keeps every object in exactly one of client, magazine, free slot, spares full or empty, depot lists pure, and comes nearer the end; slabs are asked only when loaded, spare and depot have nothing |
| Slab.Cache.KmemAlloc | src/vm/slab.c:269-316 | the loop ends; the client gets an object nobody held, the top of the loaded magazine if it has one; while a magazine can serve, the slabs are untouched; failure only when nothing is left for this CPU |
| Slab.Cache.FreeTurn | src/vm/slab.c:333-368 | the same for freeing: slabs are used only when no magazine has room |
| Slab.Cache.KmemFree | src/vm/slab.c:318-369 | the loop ends and exactly that object leaves the client's hands, to the top of the loaded magazine while one has room or can be had, and otherwise to its slab |
| Slab.Cache.FreeThenAlloc | src/vm/slab.c:269-369 | an object freed into a magazine is the next one allocated on that CPU, with the slabs untouched |
| Slab.Cache.DrainMagazine | src/vm/slab.c:378-387 | every object of the magazine goes back to its slab |
| Slab.Cache.Reclaim | src/vm/slab.c:463-508 | the slabs that stay are exactly those with an object in a client's hands or in a CPU's magazine; clients lose nothing |
| Slab.Cache.Destroy | src/vm/slab.c:417-461 | the assertion passes exactly when no client holds an object, and then every page is returned |
| SlabLayout.SlotExact | src/vm/slab.c:117-150 | for every size and power-of-two alignment up to a page: each slot is aligned, behind the header, inside the page, within the bitmap, and its address leads back to its slab and slot |
| SlabLayout.SlotsApart | src/vm/slab.c:171-174 | different slots do not overlap |
| SlabLayout.InPageIff | src/vm/slab.c:117-150 | a cache that is accepted, for any size and any power-of-two alignment of 64 bits, keeps all its objects inside their pages and behind the header if and only if the alignment is at most a page |
| SlabLayout.TooBigAccepted | src/vm/slab.c:135-137 | objects of 64 bytes aligned to 8192 give an accepted cache with 0xFFFFFFFF slots at offset 8192, because the page size minus the offset wraps |
| Kmalloc.Heap.constructor | src/vm/kmalloc.c:39-60 | caches without slabs over a page allocator without slab pages are a valid heap |
| Kmalloc.ObjectBack | src/vm/kmalloc.c:80-92 | the address of an object leads to its slab page, through the page to the cache that owns it, and to its slot |
| Kmalloc.AddrUnique | src/vm/slab.c:171-174 | no two objects of any caches in clients' hands have the same address |
| Kmalloc.NotBoth | src/vm/kalloc.c:94-108 | no pointer in a client's hands is both an object and a page |
| Kmalloc.Heap.ReclaimAll | src/vm/slab.c:463-508 | exactly the slabs without a client's or a CPU's object, of the caches that can be locked, become free pages; clients and CPUs lose nothing; the count is positive exactly when there was one |
| Kmalloc.Heap.KpageAlloc | src/vm/kalloc.c:222-236 | with the reclaim and the second attempt: it fails if and only if no page is free and no cache within reach has such a slab |
| Kmalloc.Heap.Grow | src/vm/slab.c:177-201 | the new page gets its owner, stops being a client's page, and gives the object |
| Kmalloc.Heap.CacheAlloc | src/vm/slab.c:269-316 | an object nobody held, with slab pages and ownership kept in step; failure only when no page can be had |
| Kmalloc.Heap.Kmalloc | src/vm/kmalloc.c:62-78 | the result is an object of the class, a page, ZERO_SIZE_PTR or NULL as the size says; it is a pointer nobody had, and the pointers in clients' hands grow by exactly it |
| Kmalloc.Heap.Kfree | src/vm/kmalloc.c:80-92 | any pointer in a client's hands goes back to the cache and slot, or the page, that it came from, and exactly it leaves the clients' hands; ownership is kept |
| Kmalloc.Heap.RoundTrip | src/vm/kmalloc.c:62-92 | kmalloc and then kfree leave the clients' pointers as they were |
| MessageLog.AddSound | src/kern/kmsg.c:122-188 | numbers without gaps, limits on records and bytes, only the newest record open |
| MessageLog.MakeRoomMinimal | src/kern/kmsg.c:161-163 | no more is dropped than must be |
| MessageLog.ReadExact | src/kern/kmsg.c:204-235 | reading succeeds exactly for the closed records held |
| MessageLog.AddThenRead | src/kern/kmsg.c:122-235 | the record holds the text, behind its earlier text if continued, and reads back once closed |
| MessageLog.AddExact | src/kern/kmsg.c:122-188 | the newest record holds the first min(length, limit) characters; it is final, and readable at once, exactly if the last of them is a newline; a new record has the next number and the given time, caller and level (6 for a continuation with nothing to continue); a continuation extends the newest record exactly if that is open, has the same caller and room, and keeps its number, time, caller and level |
| MessageLog.AddNothing | src/kern/kmsg.c:133-135 | an empty text changes nothing |
| MessageLog.AddKeepsOlder | src/kern/kmsg.c:156-163 | every older record still held is as it was, closed |
| Kmsg.Ring.DropOldest | src/kern/kmsg.c:48-55 | the two wrapping rings stand for the queue without its first record |
| Kmsg.Ring.WriteText | src/kern/kmsg.c:57-63 | the bytes land in the ring from the offset on, across the wrap, and no other byte changes |
| Kmsg.Ring.AppendLast | src/kern/kmsg.c:85-108 | the newest record is extended exactly when the queue allows it |
| Kmsg.Ring.FinalizeLast | src/kern/kmsg.c:190-202 | the newest record is closed |
| Kmsg.Ring.DropUntilRoom | src/kern/kmsg.c:161-163 | the drop loop ends with room for the record |
| Kmsg.Ring.KmsgAdd | src/kern/kmsg.c:122-188 | the rings follow the queue's Add, of which MessageLog.AddExact says what it leaves |
| Kmsg.Ring.KmsgRead | src/kern/kmsg.c:204-235 | the text reassembled across the wrap is the queue's record |
| Kmsg.Ring.KmsgFirstSeq | src/kern/kmsg.c:237-248 | the number of the oldest record held |
| Console.ConsoleAccounts | src/dev/console.c:127-147 | for every interleaving with writers, each number below cons_seq is covered by exactly one event: rendered with the final text written under it, or in one dropped report that was right |
| Console.AccountsOnce | src/dev/console.c:127-147 | events in order leave no number out and none twice |
| Console.StepKeeps | src/dev/console.c:127-159 | each step of reader and writers keeps the accounts |
| Console.Port.Drain | src/dev/console.c:127-147 | the loop ends at the limit or at a record not yet closed, accounts for every number it passes, and renders nothing at or above the limit |
| Console.DrainBound | src/dev/console.c:127-159 | over every interleaving with writers, a drain never passes its limit |
| Console.ReaderExact | src/dev/console.c:127-147 | the reader stops only at its limit, or at a number that is neither dropped nor closed; what is closed below the limit it renders, what is dropped it reports up to the oldest record held |
| FdtTokens.NameLen | src/libkern/fdt.c:73-82 | the length of the C string with its NUL, 0 exactly when it runs out of the block |
| FdtTokens.NextTag | src/libkern/fdt.c:89-145 | on any block of whole cells the cursor advances and stays in the block; a flattened token is read back with its name, value and length |
| FdtTokens.LiteralBegin | src/libkern/fdt.c:89-145 | the bytes of a begin-node token with its name, NUL and padding |
| FdtTokens.LiteralProp | src/libkern/fdt.c:89-145 | the bytes of a property token: length, name offset, value, padding |
| FdtTokens.LiteralPlain | src/libkern/fdt.c:23-29 | the bytes of the other tokens, and a big-endian cell read from literal bytes |
| FdtTree.WalkInverts | src/libkern/fdt.c:186-221 | for every tree, with NOPs anywhere, the nodes met are the tree's in document order with names and depths |
| FdtTree.SubsInvert | src/libkern/fdt.c:223-246 | subnode iteration gives exactly the direct children, whatever follows the node |
| FdtTree.PropInverts | src/libkern/fdt.c:264-292 | lookup gives the first property of that name, or none |
| FdtReader.NextNode | src/libkern/fdt.c:196-221 | the byte-level loop ends on any blob and finds the next node of the token sequence |
| FdtReader.FirstNode | src/libkern/fdt.c:186-193 | the same from the start |
| FdtReader.NextSubnode | src/libkern/fdt.c:223-246 | the next child, or the end of the children |
| FdtReader.GetProp | src/libkern/fdt.c:264-292 | offset and length of the value found over the tokens |
| FdtReader.PropU32 | src/libkern/fdt.c:294-309 | the first cell of a value of four bytes or more |
| FdtReader.NodeByPhandle | src/libkern/fdt.c:311-324 | from the bytes to the tree: the first node in document order with that handle, none exactly when no node has it |
| ExecStack.Gather | src/kern/exec.c:320-345 | the strings are packed one after another, refused exactly when there are too many or they do not fit a page |
| ExecStack.FitsIff | src/kern/exec.c:354-368 | in plain numbers: exec accepts exactly when there are at most 31 arguments and the strings with their NULs plus 8 bytes per argument and 40, each rounded up to 16, fit 4096 bytes |
| ExecStack.LayoutOk | src/kern/exec.c:354-368 | SP is 16-byte aligned; block and strings are inside the page and apart |
| ExecStack.DecodeBack | src/kern/exec.c:370-379 | a page with argc, pointers, terminators and strings in place decodes to the arguments |
| ExecStack.BuildStack | src/kern/exec.c:320-379 | for every argv, the page decodes from SP to exactly that argv, or it is refused exactly when it does not fit |

## Left out

- Memory ordering, barriers, MMIO, assembly and context-switch code: steps are sequentially consistent and swtch is one handoff.
- ASID tagging of translations by the TLB is assumed: a CPU uses an entry only under the number it was cached with.
- Contexts are pairs of generation and number; wrap-around of the 64-bit generation is not modelled.
- Page-table use in exec after the new image is committed, and in exit before the switch to the scheduler.
- Kernel threads run without a user page table and do not enter the ASID steps.
- SchedTheorems.NoLostCondition: says that a waker is still on its way, not that it arrives in bounded time; fairness of CPUs is not modelled.
- Order of walks over allproc: taken in any order, which covers the list's own order.
- Tests of the killed flag other than the one in wait.
- The exit status and the pid that wait hands to its caller.
- Order of priority drop and deactivation between two CPUs, a rule of the interrupt controller.
- Kalloc.PageAllocator.KpageAlloc: is the first attempt alone; Kmalloc.Heap.KpageAlloc adds the reclaim and the second.
- Kalloc.PageAllocator.SetSlab: takes a page in hand, as slab_grow gives it; on a free page the source would leave a slab page on the free list.
- Kmalloc.Heap.Kmalloc: leaves the choice of the class to the caller, among those large enough, and takes each call as one step; interleavings within a cache are those of Slab.Cache.AllocTurn and Slab.Cache.FreeTurn.
- Pmap.Memory.MapPage: takes the source's assertion that the page is not mapped as a precondition.
- Pmap.Memory.Mappages: the same for its range.
- FdtTokens.NextTag: takes a block whose length is a multiple of 4; on others the source reads up to three bytes past the end.
- FdtReader.PropU32: treats a value that runs out of the block, which a length near 2^32 makes possible, as a panic, where the source reads on.
- Pmap.Memory.Growproc: takes the size bound that the source asserts on the grown address as a precondition.
- Copy-on-write, instruction-cache synchronisation and the kernel-stack window of pmap.c.
- Reclaim entered while the magazine cache's own lock is held; the lock is not recursive, and no claim of freedom from deadlock is made.
- Constructors of slab objects, and the caches that hand out caches and magazines: memory for magazines is a parameter.
- The size-class tables that kmalloc_init fills.
- kmsg_bypass, the unlocked paths at panic time, console_replay, rendering of a record, and the console's line editing.
- ELF headers and segment loading; exec starts here from an image that ends at a page boundary of at least one page.
- Faults while exec reads the caller's argv.
- fdt_open, fdt_node_is and malformed blobs beyond termination; a property name that runs out of the strings block counts as unequal.
- Drivers, timers, system calls, the shell and the user programs.
