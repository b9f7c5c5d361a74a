# xv6 kernel: memory, process protocol and alarm

A Dafny model of the xv6-riscv kernel code of the labs, in three parts, with proofs over every
input, every run and every interleaving. `dafny verify dfyconfig.toml` checks all of it.

**Pages, page tables and user memory** (`Riscv`, `PhysMem`, `Kalloc`, `PageTable`, `Vm`, `Uvm`,
`Teardown`, `Copy`, `UserIo`, `ProcPages`, `Kernel`, `Scans`). Physical memory is an object of
mutable 4096-byte pages. The free list is threaded through the pages themselves, as in the C code,
and page tables are words in raw pages, changed in place. Beside them runs a ghost `Space`: which
page holds each tree node, and the partial map from page number to frame and flags. Every operation
is proved against that map, and against the set of pages it takes and gives back. A `panic` of the
C code is a branch that is proved dead. `PageTable.Translate` is the translation algorithm of
section 4.3.2 of the RISC-V Privileged Architecture on the raw words; it agrees with the map.
`Kernel.ProcTable` is the process table above it. Its invariant `Valid` says that every page of the
pool is free or held by exactly one process: as tree node, user frame, trapframe or saved trapframe.
`Valid` also fixes the leaves of a process: its pages [0, PGROUNDUP(sz)) and the fixed high pages.

**The process protocol** (`Machine`, `Locks`, `Invariant`, then one module of step lemmas for each
concern, and the modules of theorems below). Here sleep, wakeup, wait, exit, reparent, fork, kill, scheduler, sched,
yield, clockintr and sys_sleep are interleaved steps of any number of CPUs over any number of slots.
One step is one lock operation or one assignment; the table scans are loops whose every turn other
CPUs can see. Locks belong to CPUs and stay held across swtch. Timer interrupts may arrive at any
point where they are enabled, in user code, in the kernel and in the scheduler. `Machine.Step` is the
step relation, `Invariant.Inv` the inductive invariant. The theorems about all reachable states:
`Protocol` (locks, placement, lost wakeups, pids, the process tree), `Calls` (what wait, exit, fork,
kill and sys_sleep return and why), `States` (the state diagram), `Interrupts` (when interrupts are
enabled, and the tick count as their number) and `Progress` (no state is stuck). `Calls` rests on
`Learned` (what code has read under p->lock stays true until it releases it), `Outcomes` and
`History` (the exit statuses and marks of the past). `Witness` has two runs from boot, which `Scenes`
builds step by step.

**The user alarm** (`Alarm`). A class with the fields of struct proc that the alarm uses, whose methods are proved
equal to functions on states, and theorems about runs of those functions.

## Reading the model

- Processes follow `lab traps/kernel/proc.c`; the memory layer is that of `lab page tables`, which
  the other labs share. The proc_pagetable of `lab page tables`, with its third fixed page, is
  modelled too.
- The last error branch of proc_pagetable in `lab page tables/kernel/proc.c:216-220` would unmap the
  wrong page and panic later; it is unreachable, which `ProcPages.ProcPagetable3` proves.
- freeproc in `lab page tables/kernel/proc.c:169-170` does not reset `usysro`. The ownership results
  are therefore about the freeproc of `lab traps`, which resets every page pointer.
- Assumptions: spinlock.c and memlayout.h are not part of this model. acquire and release are mutual
  exclusion plus the noff count; TRAMPOLINE, TRAPFRAME and USYSCALL are the three top pages below
  MAXVA; processes share a pool of no more pages than lie below USYSCALL.
- `p->ticks`, pids and `Machine.State.now` are unbounded. The tick counter that sys_sleep reads is
  `now` modulo 2^32, and a remainder by zero is the dividend, as section 7.2 of the RISC-V
  Unprivileged ISA has it.
- exit by init is a panic in the source; in `Machine` that CPU stays at `ExitCheck` and takes timer
  interrupts at most.
- Interrupts stay enabled in `Machine` at the entry of a trap from user code, which allows more
  interleavings than the hardware does.
- What the code of a call has in its local variables is part of the program point: the pid that fork
  will return, the pid and status that wait has found, why wait gives up, the result of killed.
  `State.exited` and `State.marked` are ghost records of the past: the status of each process that
  has become a zombie, by pid, and the pids of the slots that kill and setkilled have marked.
- kill(0) finds the first slot whose pid is 0, which is one not in use, and marks it; allocproc does
  not clear the mark, so the next process in that slot is born killed. `Witness.BornKilled` is such a
  run. `Calls.MarkedByPid` has the condition, pid != 0: without a kill(0), only a process whose own pid
  was marked is ever killed.
- exec.c is not part of this model. A system call other than sigalarm, sigreturn and exit is its return
  value in `Alarm`, and for an exec that succeeds the trapframe of the new program.
- A ghost parameter `sp`, `parent` or `child` is the shape of the page table whose root is passed.

## Model

| member | source | states |
|---|---|---|
| Riscv.IndexPathInjective | lab page tables/kernel/riscv.h:356-364 | two addresses below MAXVA have the same three indices if and only if they lie in the same page, so different pages reach different entries |
| Riscv.FlagBits | lab page tables/kernel/riscv.h:341-345 | the permission tests read bits 0 to 4 of the entry: V, R, W, X and U |
| Riscv.PteRoundTrip | lab page tables/kernel/riscv.h:341-353 | the entry that mappages writes has the page number from bit 10 up and bit 0 set, and gives back the physical address and every permission bit |
| Riscv.RoundUpPages | lab page tables/kernel/riscv.h:338 | PGROUNDUP in uint64 arithmetic is the least page boundary at or above the size |
| PhysMem.WordOfSetWord | lab page tables/kernel/vm.c:166 | a 64-bit store is read back at its own word and changes no other word of the page |
| PhysMem.WordBytes | lab page tables/kernel/vm.c:166 | the eight bytes of a word lie in memory with the lowest first |
| Kalloc.Kmem.Kalloc | lab system calls/kernel/kalloc.c:69-84 | pops the first free page and fills its 4096 bytes with 5; returns 0 exactly when the list is empty; the threaded list stays intact |
| Kalloc.Kmem.Kfree | lab system calls/kernel/kalloc.c:47-64 | pushes a managed page that is not free: its first word holds the old head and the rest is filled with 1; no other page changes |
| Kalloc.Kmem.FreeRange | lab system calls/kernel/kalloc.c:34-41 | a page is free afterwards if and only if it was free or lies entirely in the range |
| Kalloc.Kmem.GetBytes | lab system calls/kernel/kalloc.c:86-99 | terminates and returns the int that equals 4096 times the number of free pages modulo 2^32 |
| PageTable.TranslateIsLookup | lab page tables/kernel/vm.c:73-103 | for every address below MAXVA the hardware's walk of the raw words finds exactly what the map says |
| PageTable.InsertLeaf | lab page tables/kernel/vm.c:166 | one store of a leaf entry inserts one page into the map and nothing else |
| PageTable.DeleteLeaf | lab page tables/kernel/vm.c:197 | one store of 0 deletes one page from the map and nothing else |
| PageTable.AddNode | lab page tables/kernel/vm.c:96-99 | linking a zeroed page as a new table leaves the map as it was |
| Vm.AllocNode | lab page tables/kernel/vm.c:95-100 | the allocating branch of walk: one free page becomes a tree node, or memory is exhausted and nothing changes |
| Vm.Walk | lab page tables/kernel/vm.c:85-103 | returns the entry of the page exactly when its level-0 table exists; with alloc it fails if and only if there are fewer free pages than missing nodes; never changes the map, also when it fails midway; each node it adds costs one free page |
| Vm.MapPages | lab page tables/kernel/vm.c:138-172 | inserts the whole range if and only if there are as many free pages as the range misses tree nodes, otherwise a prefix of it; no remap panic for unmapped pages |
| Vm.MapRangeIs | lab page tables/kernel/vm.c:144-171 | the mapped range is page va+i to frame pa+i with the given flags, over an unchanged rest |
| Vm.UvmUnmap | lab page tables/kernel/vm.c:174-199 | deletes exactly the range, frees its frames when asked, in order, each once; none of its four panics can fire on mapped pages |
| Uvm.UvmDealloc | lab page tables/kernel/vm.c:258-274 | unmaps and frees exactly the pages between the two sizes; the free list grows by their number |
| Uvm.UvmAlloc | lab page tables/kernel/vm.c:230-256 | succeeds if and only if there are free pages for the new pages and for the tree nodes they miss, and takes exactly those; the new pages are zeroed, fresh, readable by copyin, and writable by copyout exactly when W was asked for, with the flag bits given by number; on failure the map is restored and every page accounted for |
| Teardown.FreeWalk | lab page tables/kernel/vm.c:276-294 | with no leaves left, exactly the pages of the subtree go to the free list, although kfree overwrites each of them; it terminates and does not panic |
| Teardown.UvmFree | lab page tables/kernel/vm.c:296-304 | all user frames and all tree nodes go to the free list, nothing else changes |
| Copy.UvmCopy | lab page tables/kernel/vm.c:306-340 | succeeds if and only if there are free pages for the copies and for the tree nodes they miss; then each page of the child has the flags and bytes of the parent's in a frame of its own; on failure the child's map is restored; the parent is untouched |
| UserIo.WalkAddr | lab page tables/kernel/vm.c:105-126 | the frame address of a readable user page, 0 for every other address; user pages may lie anywhere, such as the fixed read-only one of this lab |
| UserIo.AccessBits | lab page tables/kernel/vm.c:113-125 | a user page is readable exactly when it is mapped with bit 4 of its flags set, and writable when bit 2 is set too |
| UserIo.CopyOut | lab page tables/kernel/vm.c:355-383 | memory and result equal those of storing byte by byte up to the first unwritable page, also when it stops midway |
| UserIo.CopyIn | lab page tables/kernel/vm.c:385-408 | buffer and result equal those of reading byte by byte up to the first unreadable page, where the result is -1 |
| UserIo.CopyInStr | lab page tables/kernel/vm.c:410-451 | buffer and result equal those of reading byte by byte up to the first NUL |
| UserIo.ChunkOut | lab page tables/kernel/vm.c:375-380 | one memmove within a page is what its single bytes do |
| UserIo.ChunkIn | lab page tables/kernel/vm.c:398-405 | one memmove out of a page delivers what its single bytes do |
| UserIo.OutSucceeds | lab page tables/kernel/vm.c:359-383 | copyout returns 0 if and only if every byte of the range lies on a writable user page |
| UserIo.OutStops | lab page tables/kernel/vm.c:359-383 | copyout returns -1 otherwise, and has stored exactly the bytes before the first one it may not write |
| UserIo.InDelivers | lab page tables/kernel/vm.c:389-408 | each byte that copyin delivers is the byte at its address, frame and offset spelt out |
| UserIo.InStops | lab page tables/kernel/vm.c:389-408 | copyin delivers the whole range with 0, or the bytes before the first unreadable address with -1 |
| UserIo.InSucceeds | lab page tables/kernel/vm.c:389-408 | copyin returns 0 if and only if every byte of the range lies on a user page, and -1 otherwise |
| UserIo.OutTouches | lab page tables/kernel/vm.c:359-383 | copyout changes frames of user pages only |
| UserIo.OutElsewhere | lab page tables/kernel/vm.c:359-383 | copyout changes no user byte outside the target range |
| UserIo.OutThenIn | lab page tables/kernel/vm.c:359-408 | after a successful copyout, copyin of the same range returns the same bytes, across any page boundaries |
| UserIo.GrownReads | lab page tables/kernel/vm.c:230-256 | copyin of any range of pages that uvmalloc added gives zeros, and copyout succeeds there exactly when they were added writable |
| UserIo.InStrSucceeds | lab page tables/kernel/vm.c:415-451 | copyinstr returns 0 if and only if a NUL lies within the first max bytes, all readable up to it |
| UserIo.InStrDelivers | lab page tables/kernel/vm.c:415-451 | on success the buffer holds exactly that string with its NUL |
| UserIo.InStrFails | lab page tables/kernel/vm.c:415-451 | otherwise copyinstr returns -1 |
| UserIo.Isolation | lab page tables/kernel/vm.c:358-408 | copyout to one address space leaves what copyin and copyinstr read from another unchanged when their frames are disjoint |
| ProcPages.UvmCreate | lab page tables/kernel/vm.c:201-212 | an empty page table in one page, or 0 and nothing changed, exactly when no page is free |
| ProcPages.ProcPagetable | lab traps/kernel/proc.c:188-220 | exactly the two fixed mappings, or 0 with every page back, exactly when fewer than three pages are free; the second mapping cannot fail |
| ProcPages.HighPagesAre | lab traps/kernel/proc.c:200-217 | the two fixed mappings by number: page, frame and flag bits, neither accessible to user code |
| ProcPages.ProcFreePagetable | lab traps/kernel/proc.c:222-230 | everything the address space owned goes to the free list, without panic, when its leaves are [0, PGROUNDUP(sz)) and the fixed pages |
| ProcPages.ProcPagetable3 | lab page tables/kernel/proc.c:184-224 | exactly the three fixed mappings, or 0 with every page back, exactly when fewer than three pages are free; the error branch that leaves a page mapped is unreachable |
| ProcPages.HighPages3Are | lab page tables/kernel/proc.c:196-221 | the three fixed mappings by number; the third is readable by user code and not writable |
| ProcPages.ProcFreePagetable3 | lab page tables/kernel/proc.c:226-235 | as ProcFreePagetable, with the third fixed page |
| Kernel.ProcTable.constructor | lab traps/kernel/proc.c:46-59 | an empty table owns nothing and all pages are free |
| Kernel.ProcTable.AllocProc | lab traps/kernel/proc.c:105-161 | fails if and only if no slot is UNUSED or fewer than five pages are free, and then all pages come back; on success the first UNUSED slot is set up with the next pid, two trapframe pages and a page table; a pid is used up exactly when some slot was UNUSED |
| Kernel.ProcTable.FreeProc | lab traps/kernel/proc.c:163-186 | exactly what the slot held goes to the free list, the slot becomes UNUSED, no other page or slot changes |
| Kernel.ProcTable.GrowProc | lab traps/kernel/proc.c:271-289 | size, mappings, contents and free pages after growth, shrinkage and failure; new pages are writable by user code; it fails if and only if it grows and lacks pages for the range and its tables; growth never reaches the fixed pages and a shrink below zero changes nothing |
| Kernel.GrownMemory | lab traps/kernel/proc.c:271-289 | after growproc(n) for n > 0, copyin of any range of the new pages gives zeros with result 0 and copyout there succeeds |
| Kernel.ProcTable.CopyMemory | lab traps/kernel/proc.c:305-311 | uvmcopy between two slots of the table, with its exact failure condition: the other slots stand |
| Kernel.ProcTable.CopyTrapframe | lab traps/kernel/proc.c:313-317 | the child's trapframe is the parent's with a0 cleared |
| Kernel.ProcTable.Launch | lab traps/kernel/proc.c:331-337 | the child gets its parent and becomes RUNNABLE |
| Kernel.ProcTable.ForkMemory | lab traps/kernel/proc.c:300-311 | fork up to the copy of memory, with both of its failure paths undone and the exact condition for them |
| Kernel.ProcTable.Fork | lab traps/kernel/proc.c:291-340 | fails if and only if no slot is UNUSED or there are fewer free pages than five, the parent's pages and the tables their copy misses; on success a RUNNABLE child with faithful copies of memory and registers; a failed fork is atomic: all pages free as before, no page in use touched, no live process changed, only nextpid may have moved |
| Kernel.ForkedRegisters | lab traps/kernel/proc.c:313-317 | parent and child trapframes agree in every register but a0, the bytes 112 to 119, which is 0 in the child |
| Kernel.ForkedReads | lab traps/kernel/proc.c:305-311 | after fork, copyin from the child reads what it read from the parent, and copyout may write the same pages |
| Kernel.TableStep | lab traps/kernel/proc.c:109-186 | an operation that exchanges pages between one slot and the free list keeps the ownership partition and every other slot |
| Kernel.PoolBound | lab traps/kernel/proc.c:280-283 | user pages and free pages together fit below the fixed pages, so no growth can reach them |
| Kernel.CopyOutTouches | lab page tables/kernel/vm.c:355-383 | no frame that copyout to one process of the table may change is a tree node of any process, a free page, a trapframe or held by another process |
| Kernel.CopyOutKeeps | lab page tables/kernel/vm.c:355-383 | after any store by copyout to one process every page table holds its map and every page its owner |
| Kernel.ProcTable.CopyOut | lab page tables/kernel/vm.c:355-383 | copyout to a process of the table: the table stays valid, memory and result are the byte-wise ones, and after success copyin of the range returns the source bytes |
| Kernel.ProcessesIsolated | lab page tables/kernel/vm.c:306-408 | whatever copyout stores for one process of the table, copyin and copyinstr read the same from any other |
| Kernel.ProcTable.SbrkPage | lab system calls/user/sysinfotest.c:42-75 | sbrk(PGSIZE) then sbrk(-PGSIZE) succeed if and only if there are free pages for the page and the tables it misses; freemem moves by exactly one page and back if and only if the tables were there, and the map is restored |
| Kernel.TablesNeed | lab page tables/kernel/vm.c:85-103 | a page takes one free page exactly when its lowest table exists |
| Kernel.ProcTable.GetNprcs | lab system calls/kernel/proc.c:701-710 | the loop returns the size of the set of slots that are not UNUSED |
| Kernel.ProcTable.SysInf | lab system calls/kernel/proc.c:712-724 | sysinfo delivers 4096 times the number of free pages and the number of slots in use to user memory exactly when both words are writable there; the table stays valid |
| Kernel.InUseUpdate | lab system calls/kernel/proc.c:701-710 | changing one slot changes the count by what that slot contributes; with Fork and FreeProc the count agrees with the table over all runs |
| Scans.Dfs | lab page tables/kernel/vm.c:453-479 | prints exactly the lines of Dump: every child table and every leaf, each with its depth, index and entry, in the order of the walk |
| Scans.DumpLists | lab page tables/kernel/vm.c:453-479 | the lines of Dump below any node are those of the tables and mapped pages below it, each once, ordered by first address and depth |
| Scans.VmPrint | lab page tables/kernel/vm.c:481-485 | one line for each table below the root and each mapped page, with its depth, index and entry, in increasing order of the first address, a table before what it holds |
| Scans.ScanAccessed | lab page tables/kernel/proc.c:722-736 | reports and clears the accessed bits of the pages, and changes nothing else |
| Scans.AccessedBit | lab page tables/kernel/riscv.h:346 | the accessed bit is bit 6 |
| Scans.ClearRangeIs | lab page tables/kernel/proc.c:729-736 | in the range exactly bit 6 of the flags is cleared; frames and all other flags stay |
| Scans.PgAccss | lab page tables/kernel/proc.c:722-745 | the mask arrives in user memory as a 64-bit word exactly when its eight bytes are writable; the bits of the range are cleared |
| Scans.ThreePagesAccess | lab page tables/kernel/proc.c:184-224 | copyin and copyout may run on a process with the third fixed page, page number 0x3fffffd: it is readable by user code and not writable, its flags have bits 1 and 4 and not bit 2; it is no free page and no tree node, and no user frame is mapped twice |
| Scans.MaskBits | lab page tables/kernel/proc.c:729-736 | bit i of the mask is set if and only if i is in range and page i was accessed |
| Scans.SecondScan | lab page tables/kernel/proc.c:729-736 | an immediate second scan reports 0 |
| Locks.BaseOrder | lab traps/kernel/proc.c:92-599 | every step of every function takes locks in order, releases only what it holds, and reaches swtch with only p->lock |
| Locks.IsrOrder | lab traps/kernel/trap.c:147-184 | the same for clockintr and the yield of a timer interrupt |
| CoreSteps.ActOrder | lab traps/kernel/proc.c:498-526 | the lock order holds for whatever a CPU executes, interrupts included |
| CoreSteps.Granted | lab traps/kernel/proc.c:92-623 | each shared variable is changed only at the listed program points, and a state only under p->lock |
| PlaceSteps.LocksStep | lab traps/kernel/proc.c:458-526 | lock ownership stays with the CPU, over swtch in both directions |
| PlaceSteps.NoffStep | lab traps/kernel/proc.c:498-515 | noff counts the held locks, and interrupts are off while it is positive |
| PlaceSteps.PlaceStep | lab traps/kernel/proc.c:458-515 | a process is on at most one CPU, and its state fits the place where its thread is |
| SlotSteps.SlotsStep | lab traps/kernel/proc.c:109-161 | two forks never fill the same slot, and a slot being filled stays USED until its fork is done |
| PidSteps.PidsStep | lab traps/kernel/proc.c:92-103 | pids stay distinct and below nextpid, also between allocpid and the assignment to the slot |
| TreeSteps.TreeStep | lab traps/kernel/proc.c:331-400 | parents stay alive and older than their children; exit leaves no child behind |
| TreeSteps.ZombiesStep | lab traps/kernel/proc.c:431-434 | a zombie loses its pid only while wait frees it |
| SleepSteps.ChansStep | lab traps/kernel/proc.c:554-581 | a sleeping thread is on the channel of its caller |
| WaitSteps.WaitsStep | lab traps/kernel/proc.c:411-447 | what wait has concluded from the slots it scanned stays true until it releases wait_lock |
| WakeSteps.TestWakes | lab traps/kernel/proc.c:585-598 | wakeup finds a sleeper of its channel fully asleep and makes it RUNNABLE, because sleep took p->lock first |
| WakeSteps.WakesStep | lab traps/kernel/proc.c:344-395 | a parent asleep in wait has no zombie child, except while reparent is about to wake init |
| TickSteps.WrappedElapsed | lab traps/kernel/sysproc.c:62 | the 32-bit difference of two tick counts never exceeds the true one |
| TickSteps.SleepersStep | lab traps/kernel/trap.c:177-184 | a sleeper in sys_sleep has tested the present tick count, or clockintr is about to look at it |
| Protocol.InvStep | lab traps/kernel/proc.c:92-623 | every step of every CPU keeps the whole invariant |
| Protocol.InvRun | lab traps/kernel/proc.c:46-269 | the invariant holds at the end of every run from the booted state |
| Protocol.Boots | lab traps/kernel/proc.c:247-549 | from every booted state with init in slot 0 the scheduler brings init to user code, so the reachable states are not just the booted ones |
| Protocol.RunningOnOneCpu | lab traps/kernel/proc.c:458-515 | while p->lock is free, p is RUNNING if and only if exactly one CPU has c->proc == p |
| Protocol.FreeprocOffCpu | lab traps/kernel/proc.c:416-434 | freeproc in wait runs on a zombie child of the caller whose thread no CPU executes |
| Protocol.LockOrder | lab traps/kernel/proc.c:23-27 | whatever a CPU holds comes before the lock it wants: wait_lock or tickslock, then p->lock, then pid_lock or kmem.lock |
| Protocol.OneProcLock | lab traps/kernel/proc.c:583-599 | no CPU ever holds the locks of two processes |
| Protocol.NoDeadlock | lab traps/kernel/proc.c:23-27 | the waits-for graph of the CPUs has no cycle |
| Progress.NeverStuck | lab traps/kernel/proc.c:23-27 | in every reachable state some CPU has a next step of its own code and waits for no held lock, if and only if some CPU is not in the panic of exit for init; two CPUs are never stuck |
| Progress.HasStep | lab traps/kernel/proc.c:92-623 | no CPU is ever at a point without a next step of its own code, but for init's panic |
| Progress.RangesStep | lab traps/kernel/proc.c:92-623 | the table scans never leave the table |
| Protocol.SchedChecks | lab traps/kernel/proc.c:498-515 | the four panics of sched cannot fire, from sleep, yield or exit |
| Protocol.NoZombieRuns | lab traps/kernel/proc.c:397-399 | exit never returns from sched, so "zombie exit" cannot fire |
| Protocol.LockCalls | lab traps/kernel/proc.c:92-599 | acquire is never called on a lock the CPU holds, release only on one it holds |
| Protocol.NoLostExit | lab traps/kernel/proc.c:554-581 | while wait_lock is free no process that has begun to sleep in wait has a zombie child, the window before SLEEPING is set included |
| Protocol.NoLostChildExit | lab traps/kernel/proc.c:344-449 | while wait_lock is free no process SLEEPING on its own address has a zombie child, reparented children included |
| Calls.WaitGivesUp | lab traps/kernel/proc.c:416-447 | wait returns -1 for lack of children only when the process has none, and as killed only when it is killed |
| Calls.WaitBadAddress | lab traps/kernel/proc.c:424-429 | and for a bad address only at a zombie child |
| Calls.WaitSleeps | lab traps/kernel/proc.c:440-446 | wait goes to sleep only with a child, none of them a zombie |
| Calls.WaitReturns | lab traps/kernel/proc.c:416-434 | the pid and status that wait returns are those of a process that has exited, as it passed it to exit |
| Calls.WaitFrees | lab traps/kernel/proc.c:420-434 | they are the pid and status of the child it frees |
| Calls.ExitStatus | lab traps/kernel/proc.c:385-394 | a zombie keeps the status that its thread passed to exit |
| Calls.ForkReturns | lab traps/kernel/proc.c:326-339 | fork returns the pid of a RUNNABLE child of the caller, younger than the caller |
| Calls.ForkSkips | lab traps/kernel/proc.c:114-121 | allocproc passes over slots in use only |
| Calls.SchedulerSkips | lab traps/kernel/proc.c:471-489 | the scheduler passes over slots that are not RUNNABLE only |
| Calls.WakesParent | lab traps/kernel/proc.c:585-598 | after exit has tested a slot it is not asleep on the parent's address |
| Calls.WakesInitProc | lab traps/kernel/proc.c:344-355 | nor on init's after reparent |
| Calls.WakesSleepers | lab traps/kernel/trap.c:177-184 | nor on &ticks after clockintr |
| Calls.KillMarks | lab traps/kernel/proc.c:604-623 | kill(pid) marks a slot with that pid and leaves it awake |
| Calls.KillMisses | lab traps/kernel/proc.c:604-623 | kill of the pid of a process fails only when that process has been freed meanwhile |
| Calls.FaultMarks | lab traps/kernel/trap.c:73-77 | an unexpected exception marks the process that raised it |
| Calls.MarkedByPid | lab traps/kernel/proc.c:604-645 | a process is killed only if its pid was marked, or else kill(0) was called |
| Calls.FreshSlot | lab traps/kernel/proc.c:166-186 | an UNUSED slot holds nothing of its last process, a mark left by kill(0) aside |
| Calls.KilledOnly | lab traps/kernel/trap.c:59-80 | usertrap calls exit(-1), and sys_sleep returns -1, only for a killed process |
| Calls.KilledGivesUp | lab traps/kernel/trap.c:59-80 | a killed process at a check of usertrap does not return to user code, and in wait and sys_sleep it returns instead of going to sleep |
| Calls.InterruptYields | lab traps/kernel/trap.c:166-169 | a timer interrupt makes the CPU give up the process it interrupted if and only if there was one |
| Learned.LearnedStep | lab traps/kernel/proc.c:92-645 | what code has read of a slot under p->lock stays true until it releases the lock |
| History.ExitedStep | lab traps/kernel/proc.c:385-394 | the record of exit statuses agrees with every zombie, and with every exit and wait in progress |
| States.StateChanges | lab traps/kernel/proc.c:109-623 | a process changes state only along the state diagram: each transition is made under its p->lock, at the program point of that transition, and a sleeper is woken only by wakeup of its own channel or by kill |
| Interrupts.TicksAreInterrupts | lab traps/kernel/trap.c:177-184 | over every run the tick count is the number of timer interrupts CPU 0 has taken, but for one that clockintr has still to count |
| Interrupts.ThreadEnabled | lab traps/kernel/trap.c:102-143 | a thread outside a handler runs with interrupts enabled exactly while it holds no lock; so does all user code |
| Interrupts.HandlerDisabled | lab traps/kernel/trap.c:147-184 | clockintr and the yield of a timer interrupt run with interrupts disabled to the end, over swtch too |
| Interrupts.IntenaSaved | lab traps/kernel/proc.c:491-515 | what sched saves of intena belongs to the thread: set in sleep, clear in a handler, on whatever CPU it resumes |
| Interrupts.RoundEnabled | lab traps/kernel/proc.c:464-471 | the scheduler starts each round over the table with interrupts enabled |
| Protocol.PidsDistinct | lab traps/kernel/proc.c:92-103 | the pids of live processes are distinct, nonzero and below nextpid |
| Protocol.ParentAlive | lab traps/kernel/proc.c:331-355 | no parent is UNUSED, USED or ZOMBIE, and along parent links pids decrease |
| Protocol.ReachesInit | lab traps/kernel/proc.c:344-355 | following parents from any live process leads to init, whose pid is 1 |
| Protocol.HasPath | lab traps/kernel/proc.c:247-449 | in every reachable state a process descends from init if and only if it is init or has a parent |
| Protocol.FreedZombie | lab traps/kernel/proc.c:163-186 | the one zombie without a path to init: wait has cleared its parent and is about to make it UNUSED, under p->lock |
| Witness.SleepsAndReaps | lab traps/kernel/proc.c:291-449 | a run from boot: a parent that is not killed sleeps in wait on its own address while its child is alive, the child's exit(7) wakes it, and wait returns the child's pid with 7 and frees it |
| Witness.OrphanedZombie | lab traps/kernel/proc.c:291-449 | a run from boot that reaches a zombie without a path to init, so the free lock in ProcessTree is needed |
| Witness.BornKilled | lab traps/kernel/proc.c:604-623 | a run from boot: kill(0) marks a free slot, and the next process in it is killed though its pid was never marked |
| Protocol.ProcessTree | lab traps/kernel/proc.c:247-449 | every runnable, running, sleeping or zombie process whose lock is free descends from init |
| Protocol.NoMissedTicks | lab traps/kernel/sysproc.c:61-69 | while tickslock is free, a process SLEEPING on &ticks tested the present tick count last and its time is not up |
| Protocol.SleepsLongEnough | lab traps/kernel/sysproc.c:51-72 | sys_sleep returns 0 only after at least n true ticks, also when the 32-bit counter wraps |
| Calls.SleepStarts | lab traps/kernel/sysproc.c:61 | ticks0 is the tick count, in 32 bits, at the time it is read |
| Calls.SleepMeasures | lab traps/kernel/sysproc.c:61-71 | sys_sleep measures from that reading, over all its sleeps, until it returns 0 or -1 |
| Alarm.Process.TimerInterrupt | lab traps/kernel/trap.c:84-95 | the timer branch up to yield is the function Ticked on the state, which TicksCount, WhenDelivered and Invisible characterise |
| Alarm.Process.Syscall | lab traps/kernel/syscall.c:135-153 | dispatch and the write of a0 are the function Called on the state, unless the call is exit |
| Alarm.Process.UserTrap | lab traps/kernel/trap.c:38-97 | a whole trap is the function Trapped on the state, which CallReturns, Invisible and KernelPart characterise, and the process exits instead exactly when BackWhen says so |
| Alarm.BackWhen | lab traps/kernel/trap.c:56-80 | a process comes back from a trap if and only if it is not killed before a check, raises no unexpected exception and does not call exit |
| Alarm.CallReturns | lab traps/kernel/syscall.c:135-153 | after a system call other than sigreturn and a successful exec the program goes on at the next instruction, with the return value in a0 (0 for sigalarm, -1 for an unknown number) and every other register as it was |
| Alarm.ExecStarts | lab traps/kernel/syscall.c:144-147 | after a successful exec the process goes on in the new program, with what exec returned in a0 |
| Alarm.AlarmSet | lab traps/kernel/sysproc.c:96-112 | sigalarm takes the interval from a0 and the handler from a1, and nothing else sets them |
| Alarm.Invisible | lab traps/kernel/trap.c:71-96 | a trap that is no system call and delivers no alarm leaves pc, registers and the saved frame as they were |
| Alarm.KernelPart | lab traps/kernel/trap.c:118-121 | every return, after sigreturn too, leaves the registers of the present CPU in the kernel part of the trapframe |
| Alarm.Frozen | lab traps/kernel/trap.c:88-92 | while hfl is 1 and no sigreturn is called the saved trapframe is frozen and nothing is delivered, whatever else happens |
| Alarm.Transparent | lab traps/kernel/sysproc.c:114-125 | for every run between a delivery and the next sigreturn, the interrupted program goes on with the pc and all registers it had, a0 included |
| Alarm.WhenDelivered | lab traps/kernel/trap.c:85-95 | a delivery happens if and only if the process is not killed, no handler runs, the interval is not 0 and the new tick count is a multiple of it |
| Alarm.TicksCount | lab traps/kernel/trap.c:85-86 | over every run p->ticks grows by the number of timer interrupts the process comes back from |
| Alarm.Rate | lab traps/kernel/trap.c:85-95 | with interval n > 0 unchanged, deliveries plus ticks skipped in a handler are floor((t0 + T)/n) - floor(t0/n), T being the number of timer interrupts of the run |
| Alarm.SteadyWithout | lab traps/kernel/sysproc.c:96-112 | the interval is unchanged over every run without a call of sigalarm |
| Alarm.FlagByCalls | lab traps/kernel/sysproc.c:114-125 | a handler counts as running if and only if sigreturn has not been called since the last delivery |
| Alarm.FullRate | lab traps/kernel/trap.c:85-95 | with no handler running at the start, deliveries are floor((t0 + T)/n) - floor(t0/n) if and only if the program calls sigreturn between each delivery and each later multiple |

## Left out

- Kernel.ProcTable.Fork: file references, the working directory and the name are not modelled; calls on the table run one at a time, their interleaving is the subject of Machine.
- Kernel.ProcTable.SetState: covers every assignment to p->state between live states, without the conditions under which the kernel makes them, which Machine has.
- Kernel.ProcTable.SysInf: sysinfo.h is not part of this model; struct sysinfo is taken to be two 64-bit words.
- Scans.PgAccss: the branch after a failed copyout, which frees the page table of the running process, is not modelled.
- Scans.Dfs: the text of the printed lines and the heading of vmprint; a line is its depth, index and entry.
- Alarm.Process.UserTrap: overflow of p->ticks, and children forked inside a handler, which do not get the saved trapframe; what exit does to the process is in Machine.
- Protocol.ProcessTree: for a zombie the lock must be free, because wait clears its pid and parent before its state; Protocol.HasPath has the exact condition, Protocol.FreedZombie the failing states and Witness.OrphanedZombie a run to one.
- Calls.MarkedByPid: says nothing of a process killed after a call of kill(0), which may be one that was born in the marked slot; Witness.BornKilled is a run to one.
- Progress.NeverStuck: no fairness, so no claim that a blocked CPU goes on eventually.
- Sleeping on other channels (pipes, disk, console), device interrupts other than the timer, and exec.
- kvmmake, kvmmap and the kernel page table; uvmfirst, userinit's copy of the first program; uvmclear.
- walk2 and the tracing, printing and backtrace code; procdump; the system call name table.
- File system calls in exit and fork, and the assembly of swtch and the trampoline.
- The user programs of the utilities lab.
