# xv6 with copy-on-write fork: a verified model

This project models the kernel and user code of xv6 for RISC-V, with a copy-on-write fork, and proves what
that code is for. It follows the code, also where a comment says otherwise.

- **Memory.** `Frames` is the reference-counted page allocator as values, `Kalloc` the same as kalloc.c runs
  it. `CowMachine`, `CowSteps` and `CowRuns` are copy-on-write memory as interleaved steps, refined to a model
  in which fork copies every page; `CowCalls` says what each call does from its first step to its last, and
  `CowEntries` what each entry may map. `PageTable`, `Teardown` and `Vm` are the three-level Sv39 tables in
  physical memory and the functions of vm.c on them (section 4.4 of the RISC-V Privileged Architecture, version
  1.12); `Exec` builds the memory of a new program with them.
- **Log and cache.** `RedoLog` says what the writes of commit and recovery amount to, `LogFile` is log.c as it
  runs, `LogMachine` interleaves operations, commits, crashes and recovery, `LogRuns` says what recovery yields
  by the steps of a run, and `LogAtomicity` when that is no more than was logged. `BufferCache` is the linked list
  of bio.c; `CacheMachine`, `CacheRuns`, `CacheReads` and `CacheLoss` are any number of threads using it together
  with the log. `Virtio` is the disk driver with its device (sections 2.6 and 5.2 of VIRTIO 1.1), and `DiskData`
  is what its requests do to buffers and disk.
- **Files.** `Bytes` and `Volume` are bitmaps, inodes and blocks as values; `FileSys` is the part of fs.c and
  file.c that maps, reads, writes and truncates, with `DiskSpace` for the free blocks. `Fallback` is what a volume
  falls back to when buffers are recycled; `ByteHistory` and `FileHistory` are about sequences of all these events.
- **Processes.** `SleepWakeup` is scheduling, sleep/wakeup and sleep locks; `ExitWait` is fork, exit and wait, with
  what its runs come to in `ExitRuns` and `WaitRuns`; `Spinlock` is the nesting of push_off and pop_off, and
  `SchedPanics` puts it on the CPUs of `SleepWakeup`; `PipeWait` is who waits for a pipe and who wakes them.
- **Algorithms.** `UMalloc`, `Pipe`, `Grep`, and `Shell`, whose grammar is in `ShellGrammar`.

A panic is an outcome of a method, or the state `halted` or `panicked` of a machine, and the contracts say exactly
when it happens; callers in `Vm` and `Exec` are proved never to make walk, mappages, uvmunmap, uvmclear or loadseg
panic. In the machines, what the code does under one spin lock is one step, except where it drops and retakes a
lock or where the lock is handed over.

Results that differ from what the code's comments say, or from what one would expect:

- uvmcopy does not undo its mappings when it fails (vm.c:336 says that it does). `Vm.Vm.Uvmcopy` states what it
  leaves behind, and `Vm.Vm.Fork` composes it with freeproc: fork then panics exactly when the child had a page.
- uvmunmap frees a page before it clears the entry, so that a page can be free, or somebody else's, while an
  entry maps it (`CowEntries.FreedWhileMapped`). `CowEntries.MappedNotFree` says that this is the only time.
- A bound of MAXOPBLOCKS blocks per operation is not enough to keep log_write from panicking; MAXOPBLOCKS - 1
  is (`LogMachine.NoOverflow`, `LogMachine.OverflowReachable`).
- When the source of a write faults in the middle of a block inside the file, readers see bytes that writei does
  not count (`FileHistory.FaultedWrite`, `FileHistory.FaultedCall`). They are in a buffer that writei releases
  without log_write, so what becomes of them depends on others. If the buffer is recycled first, bread returns the
  disk's contents again (`CacheLoss.FaultLoses`, `FileHistory.FaultUndone`). If the block is in the log header, the
  next commit saves them (`LogAtomicity.FaultCommitted`). `CacheLoss.NewestKept` and `LogAtomicity.AtomicIffClean`
  say exactly when neither happens.
- A pipe can lose a wakeup: pipewrite does not wake the readers when it leaves because the writer was killed, also
  if it has put in bytes before (`PipeWait.LostRun`, with the exact condition in `PipeWait.LostExactly`).
- conf/lab.mk makes the build define LAB_SYSCALL, with which uvmalloc does not clear new pages. So `Exec.Exec` says
  what the bytes of the segments are, and nothing about the rest of the memory of a new program.
- Two buffers can stand for the same block, but only for block 0 of device 0 (`CacheRuns.SharedOnlyBlank`).

## Model

| member | source | states |
|---|---|---|
| Frames.KallocKeeps | xv6-labs-2024/kernel/kalloc.c:87-103 | kalloc keeps the allocator invariant: every page is referred to (and its counter is the number of references), on the free list once, or inside kfree; the new page has its taker as only reference |
| Frames.IncrefKeeps | xv6-labs-2024/kernel/kalloc.c:105-109 | one more reference to a page that already has one keeps that invariant |
| Frames.DecrefKeeps | xv6-labs-2024/kernel/kalloc.c:62-69 | the first critical section of kfree: the page leaves the counted pages exactly when the reference was the last one |
| Frames.PushKeeps | xv6-labs-2024/kernel/kalloc.c:78-81 | the second critical section of kfree: the page in transit joins the free list, where it was not |
| Frames.CounterMeansSole | xv6-labs-2024/kernel/kalloc.c:115-120 | in every consistent state the counter of a page is 1 exactly when one reference to it exists |
| Kalloc.KMem.constructor | xv6-labs-2024/kernel/kalloc.c:29-40 | kinit: every page above the kernel is on the linked free list, with counter -1, and the invariant holds with no references |
| Kalloc.KMem.Freerange | xv6-labs-2024/kernel/kalloc.c:42-49 | the loop over kfree puts each page of the range on the list once |
| Kalloc.KMem.Kfree | xv6-labs-2024/kernel/kalloc.c:55-82 | panics exactly for addresses that are not those of managed pages; otherwise drops one reference and lists the page when none is left; a page that was free already is linked a second time, unnoticed |
| Kalloc.KMem.Alloc | xv6-labs-2024/kernel/kalloc.c:87-103 | takes the head of the list and sets its counter to 1; returns 0 exactly when the list is empty |
| Kalloc.KMem.Incref | xv6-labs-2024/kernel/kalloc.c:105-109 | one more reference, nothing else; for a page below the end of the kernel the allocator is as before |
| Kalloc.FreeKeeps | xv6-labs-2024/kernel/kalloc.c:55-82 | a whole kfree keeps the invariant, and the page is free afterwards exactly when the reference was the only one |
| CowSteps.StepKeeps | xv6-labs-2024/kernel/vm.c:337-542 | every interleaved step of user stores, faults, copyout, fork, sbrk, exit and the allocator keeps the invariant, and the eager model can follow it |
| CowSteps.CounterDecides | xv6-labs-2024/kernel/vm.c:519-524 | at the unlocked test of the counter, 1 means that no other reference to the page exists |
| CowRuns.InitInv | xv6-labs-2024/kernel/kalloc.c:29-49 | the state after boot satisfies the invariant |
| CowRuns.InitExists | xv6-labs-2024/kernel/proc.c:231-255 | such a state exists |
| CowRuns.RunRefinesEager | xv6-labs-2024/kernel/vm.c:337-407 | for every run of interleaved steps there is a run of the model in which fork copies all pages, with the same labels, such that at every moment every process sees the same memory; what the calls do is stated by their steps in the next rows |
| CowCalls.StoreLands | xv6-labs-2024/kernel/trap.c:71-76 | in every run, after a user store the process reads the byte at that address, and nobody sees any other difference |
| CowCalls.CopyoutDone | xv6-labs-2024/kernel/vm.c:369-407 | from the call of a copyout within a page to its return, with any steps of others in between: the process reads exactly the data there and nothing else has changed for it, if and only if at the call the page may be stored to and the copy that it needs did not run out of memory; otherwise it reads what it read before |
| CowCalls.FaultDone | xv6-labs-2024/kernel/vm.c:495-542 | from a store fault to the return of the trap: under the same condition the process sees what it saw and its store can now be done; otherwise it is killed |
| CowCalls.ForkDone | xv6-labs-2024/kernel/proc.c:279-326 | from the call of fork to its return: the parent sees what it saw, and a child that was made sees the same, byte by byte; without one the first page could not be mapped |
| CowCalls.SbrkDone | xv6-labs-2024/kernel/proc.c:258-275 | from the call of sbrk to its return: the pages asked for are there or gone, or memory ran out and they are as before; what the process saw of the others has not changed |
| CowCalls.OnlyOwnMemory | xv6-labs-2024/kernel/vm.c:337-542 | no step of any run is seen by anybody but its own process and the child of a finished fork |
| CowCalls.CanGoOn | xv6-labs-2024/kernel/vm.c:337-542 | in every run a process that is in one of these calls can take its next step |
| CowCalls.Nearer | xv6-labs-2024/kernel/vm.c:337-542 | and each of its steps brings it nearer to the end of the call, from which no step of others takes it back |
| CowRuns.RunNeverStuck | xv6-labs-2024/kernel/vm.c:495-542 | in every reachable state an enabled step finds every page and entry that it needs |
| CowRuns.CountersExact | xv6-labs-2024/kernel/kalloc.c:42-120 | in every state of every run, a counter is the number of counted references, a free page has none and is listed once, and every page is referred to, free or inside kfree; `CowEntries.EntryIs` says which entries are not counted |
| CowEntries.EntryIs | xv6-labs-2024/kernel/vm.c:337-364 | every entry outside uvmunmap's window is counted, or is the child's entry that its parent, at work on it, has yet to count, and then the parent's own entry for the page is counted |
| CowEntries.MappedNotFree | xv6-labs-2024/kernel/vm.c:203-218 | in every state of every run, an entry maps a page that is free or being freed if and only if its own process has just dropped the page in uvmunmap, is about to clear that entry, and the page's counter says that no reference is left |
| CowEntries.FreedWhileMapped | xv6-labs-2024/kernel/vm.c:213-217 | from every start with a user page there is a run in which init gives back its memory and the page is on the free list, and then somebody else's, while the entry still maps it: kfree comes before the entry is cleared |
| CowEntries.WritableIsPrivate | xv6-labs-2024/kernel/vm.c:351-361 | in every state of every run, a writable entry maps a page with counter 1, is not copy-on-write, and no other entry, counted or not, maps that page, outside that window |
| CowRuns.CopySourceAlive | xv6-labs-2024/kernel/vm.c:526-541 | while a sharer copies a page byte by byte, in any interleaving, the source is counted, not free, and equal to what has been copied |
| CowEntries.HaltsExactly | xv6-labs-2024/kernel/proc.c:279-355 | the panics of the machine, over any run: it has halted if and only if init exited or was killed, or a fork failed when the child already had a page, which is what `Vm.Vm.Fork` states of one call |
| PageTable.GrownKeeps | xv6-labs-2024/kernel/vm.c:110-115 | a new page-table page changes no entry that a lookup sees and keeps the invariant of all tables |
| PageTable.SetLeafKeeps | xv6-labs-2024/kernel/vm.c:176-187 | writing one leaf entry changes only the lookup of that page of that table |
| PageTable.CounterIsOne | xv6-labs-2024/kernel/vm.c:519-524 | the counter of a page is 1 exactly when one entry alone refers to it |
| Teardown.NoLeafIff | xv6-labs-2024/kernel/vm.c:303-319 | a tree without leaves in its low tables is exactly one that maps no virtual page |
| Vm.Vm.Walk | xv6-labs-2024/kernel/vm.c:95-118 | panics exactly from MAXVA on; otherwise finds the entry of the address in the three-level tree, makes missing tables only if asked and changes no lookup; fails exactly when a table is missing and may not or cannot be made |
| Vm.Vm.Walkaddr | xv6-labs-2024/kernel/vm.c:123-141 | the page of a user address, or 0 exactly when it is not a mapped user address |
| Vm.Vm.Mappages | xv6-labs-2024/kernel/vm.c:159-188 | panics for a misaligned or empty range, or at the first page that is mapped already or out of reach; fails when memory runs out before that; the pages before have been mapped to consecutive pages and every other lookup of every table is unchanged |
| Vm.Vm.Uvmunmap | xv6-labs-2024/kernel/vm.c:193-219 | panics exactly for a misaligned address or when one of the pages is not mapped or out of reach; otherwise exactly the named entries are cleared, and exactly their references dropped if asked to free |
| Vm.Vm.Uvmdealloc | xv6-labs-2024/kernel/vm.c:287-299 | the pages between the two rounded sizes are unmapped and dropped, and nothing else |
| Vm.Vm.Uvmalloc | xv6-labs-2024/kernel/vm.c:253-281 | success adds user pages with the given permissions that nobody else refers to; failure restores every lookup and every reference |
| Vm.Vm.Freewalk | xv6-labs-2024/kernel/vm.c:303-319 | panics exactly when it meets a leaf; otherwise every table page of the subtree loses its one reference, and nothing else changes |
| Vm.Vm.Uvmfree | xv6-labs-2024/kernel/vm.c:323-329 | for any table whose first pages are mapped: panics exactly when it maps a page beyond the given size; otherwise all references from the table are dropped and no other |
| Vm.Vm.ProcPagetable | xv6-labs-2024/kernel/proc.c:176-206 | a table with only trampoline and trapframe, or, on any failure, all references as before |
| Vm.Vm.ProcFreepagetable | xv6-labs-2024/kernel/proc.c:210-216 | panics exactly when the table maps a user page beyond the given size; otherwise every reference from it is gone and every other one is kept |
| Vm.Vm.Uvmclear | xv6-labs-2024/kernel/vm.c:546-554 | panics exactly when there is no entry for the address; otherwise the page is not the user's any more, and nothing else has changed |
| Exec.BuiltCopyable | xv6-labs-2024/kernel/exec.c:49-109 | a table that exec builds has no copy-on-write entry and is not the current one, so that copyout may be used on it |
| Exec.Loadseg | xv6-labs-2024/kernel/exec.c:148-166 | writes what the file has to the addresses and no other byte; panics only at a page that is not the user's; otherwise fails exactly when the file is too short |
| Exec.LoadSegments | xv6-labs-2024/kernel/exec.c:53-70 | no panic; on success every program header passed the checks, the size is the largest end, and user memory holds the bytes of the segments, the later ones over the earlier; after a failure what there is can be freed |
| Exec.MakeStack | xv6-labs-2024/kernel/exec.c:82-88 | a stack at the next page boundary, below it a guard page that is not the user's, and no panic |
| Exec.GuardStops | xv6-labs-2024/kernel/exec.c:86 | no copyin and no copyout passes the guard page |
| Exec.StackReaches | xv6-labs-2024/kernel/exec.c:98-110 | copyout to the stack that exec has made does not fail |
| Exec.PushArgs | xv6-labs-2024/kernel/exec.c:91-110 | fails if and only if there are too many strings or they, aligned, and the array of their addresses do not fit on the stack; otherwise every string with its NUL, and at the stack pointer the addresses and a 0, can be read from user memory |
| Exec.NumberOfLittle | xv6-labs-2024/kernel/exec.c:109 | the bytes of an address, lowest first, stand for that address |
| Exec.Exec | xv6-labs-2024/kernel/exec.c:49-139 | all of that in one call: on success the new table has taken the place of the old one, whose pages are freed, and every other reference, entry and page is as before; on any failure every reference is as before; neither panics |
| Vm.Vm.Uvmcopy | xv6-labs-2024/kernel/vm.c:337-364 | success: the child has the parent's entries, both write-protected, and counts for each page; failure at page i: the first i pages stay shared and the parent's entry i is already write-protected |
| Vm.ForkShows | xv6-labs-2024/kernel/vm.c:337-364 | after uvmcopy the child reads what the parent read before it, and everyone else what they read before |
| Vm.Vm.Fork | xv6-labs-2024/kernel/proc.c:279-300 | table, uvmcopy, and freeproc on failure, composed: fork fails with a panic exactly when uvmcopy had given the child a page, and otherwise leaves every reference as it was |
| Vm.Vm.HandleCowFault | xv6-labs-2024/kernel/vm.c:495-542 | succeeds exactly for a copy-on-write user page with counter 1 or with a page free; then the entry is writable and private, no byte of any user memory has changed, and one reference has gone to a new page unless the counter was 1; otherwise nothing happens |
| Vm.Vm.Copyout | xv6-labs-2024/kernel/vm.c:369-407 | a prefix of the data is in the user memory of the table and no other byte of any table's user memory has changed; it fails, and at which page, exactly as the entries, counters and free pages at the start say: at the first entry that is not usable, or the first copy-on-write entry that needs a free page when the earlier ones have taken them all |
| Vm.Vm.Copyin | xv6-labs-2024/kernel/vm.c:412-432 | fails exactly when one of the addresses is not a user's; otherwise returns the bytes of user memory |
| Vm.Vm.Copyinstr | xv6-labs-2024/kernel/vm.c:438-475 | succeeds exactly when a NUL comes within max bytes with only user addresses before it, and returns the bytes before the first one |
| RedoLog.CommitPrefix | xv6-labs-2024/kernel/log.c:193-203 | for every prefix of commit's disk writes, recovery gives the old state up to the header write and the new state from it on |
| RedoLog.RecoverPrefix | xv6-labs-2024/kernel/log.c:116-123 | a crash after any prefix of recovery's own writes changes nothing about what recovery gives; complete recovery leaves an empty log |
| LogFile.Log.WriteLog | xv6-labs-2024/kernel/log.c:178-191 | copies the logged blocks, as bread sees them, into the log area, and changes no home block |
| LogFile.Log.InstallTrans | xv6-labs-2024/kernel/log.c:68-83 | writes the log blocks to their home blocks; afterwards these blocks are the same in the cache and on the disk, and bread sees all others as before |
| LogFile.Log.WriteHead | xv6-labs-2024/kernel/log.c:102-114 | one disk write, of the header with the current block numbers |
| LogFile.Log.ReadHead | xv6-labs-2024/kernel/log.c:86-97 | the in-memory header becomes what the disk's header says |
| LogFile.Log.CommitPoint | xv6-labs-2024/kernel/log.c:193-198 | up to the header write: the log area has the contents that the header's blocks have in the cache at that time, logged or not |
| LogFile.Log.Commit | xv6-labs-2024/kernel/log.c:193-203 | its disk writes are exactly those of the transaction, in order; bread sees the same contents before and after, the log is empty, and only blocks outside the header can still differ from the disk |
| LogFile.Log.Store | xv6-labs-2024/kernel/fs.c:522-525 | a store without log_write changes the cached block, and the log's invariant holds with it |
| LogFile.Log.Recycle | xv6-labs-2024/kernel/bio.c:75-87 | recycling the buffer of a block that is not in the header shows the disk's contents of that block, and no other change |
| LogFile.Log.RecoverFromLog | xv6-labs-2024/kernel/log.c:116-123 | its disk writes are exactly those that recovery of the header requires, and the log is empty afterwards |
| LogFile.Log.LogWrite | xv6-labs-2024/kernel/log.c:214-235 | panics exactly when the header is too long or no operation is outstanding; otherwise the block is in the header once and the cache has its new contents |
| LogFile.Log.BeginOp | xv6-labs-2024/kernel/log.c:126-142 | admits the operation exactly when no commit runs and MAXOPBLOCKS blocks are left for each outstanding operation |
| LogFile.Log.EndOp | xv6-labs-2024/kernel/log.c:146-175 | the last operation commits the transaction, earlier ones change no disk block; it panics exactly when a commit is running |
| LogMachine.StepKeeps | xv6-labs-2024/kernel/log.c:126-235 | every interleaved step, including stores without log_write, recycled buffers, a crash between two disk writes and recovery, keeps the invariant of the log |
| LogMachine.RunInv | xv6-labs-2024/kernel/log.c:68-235 | the invariant holds in every state of every run |
| LogMachine.CrashAtomicity | xv6-labs-2024/kernel/log.c:68-203 | at every moment of every run, recovery gives exactly the recorded updates up to the last commit point, never those of a part of an operation, also after crashes inside recovery; the next rows say what these are in terms of the steps |
| LogRuns.RecoveryYields | xv6-labs-2024/kernel/log.c:68-235 | at every moment of every run, recovery gives each block what the last log_write of it, or store into a header block, was given that came before a header write of commit without a crash in between; or what it was at the start, if there is none |
| LogRuns.CommitKeeps | xv6-labs-2024/kernel/log.c:193-203 | when a commit ends, every update since the last crash is such a one |
| LogRuns.WholeOperations | xv6-labs-2024/kernel/log.c:126-175 | if one log_write of an operation is, all of its log_writes are, in every run and at every moment |
| LogRuns.ViewShows | xv6-labs-2024/kernel/log.c:205-235 | bread shows what the last log_write or store of the block was given, or, after a recycled buffer or a recovery, what the disk had then |
| LogAtomicity.LoggedAtomicity | xv6-labs-2024/kernel/log.c:178-191 | in every state of every run, recovery gives what was passed to log_write and nothing else, if and only if no block's last durable update is a store without log_write that changed it |
| LogAtomicity.AtomicIffClean | xv6-labs-2024/kernel/log.c:193-203 | over whole runs: recovery always gives exactly that, if and only if every header write of a commit found the blocks of the header as they were last passed to log_write |
| LogAtomicity.FaultCommitted | xv6-labs-2024/kernel/fs.c:522-525 | from every clean disk there is a run in which a store without log_write, as writei makes on a fault, is committed with the block and survives recovery |
| LogMachine.CutGrows | xv6-labs-2024/kernel/log.c:193-203 | one step never shortens the durable history, and lengthens it only with the header write of a commit, by all that has been logged |
| LogMachine.DurableStays | xv6-labs-2024/kernel/log.c:68-235 | durability over runs: what is durable at one moment is durable at every later one, through crashes and recoveries |
| LogMachine.CommittedDurable | xv6-labs-2024/kernel/log.c:193-203 | when a commit ends, all that was logged is durable, and stays so |
| LogMachine.SleeperHasWaker | xv6-labs-2024/kernel/log.c:126-175 | while somebody sleeps in begin_op, a commit runs or an operation is outstanding, whose end wakes it |
| LogMachine.NoOverflow | xv6-labs-2024/kernel/log.c:214-222 | if every operation logs fewer than MAXOPBLOCKS distinct blocks, no interleaving reaches a panic |
| LogMachine.OverflowReachable | xv6-labs-2024/kernel/log.c:214-222 | if operations may log MAXOPBLOCKS blocks, a run that panics exists, so the bound above is exact |
| BufferCache.Bcache.constructor | xv6-labs-2024/kernel/bio.c:36-53 | binit: the list is a circular permutation of all buffers, all free, all standing for block 0 of device 0 |
| BufferCache.Bcache.FindCached | xv6-labs-2024/kernel/bio.c:65-73 | the first buffer on the list for the block, or none exists |
| BufferCache.Bcache.FindFree | xv6-labs-2024/kernel/bio.c:75-87 | the least recently used buffer without references, or none exists |
| BufferCache.Bcache.Bget | xv6-labs-2024/kernel/bio.c:58-89 | a hit counts one more reference; a miss recycles the least recently used free buffer; it panics exactly when neither is possible |
| BufferCache.Bcache.Brelse | xv6-labs-2024/kernel/bio.c:124-136 | one reference less; a buffer that is now free moves to the front, and the list stays a circular permutation |
| BufferCache.Bcache.Bpin | xv6-labs-2024/kernel/bio.c:139-144 | one more reference |
| BufferCache.Unlink | xv6-labs-2024/kernel/bio.c:128-129 | the two pointer updates take exactly one buffer out of the circular list |
| BufferCache.PushFront | xv6-labs-2024/kernel/bio.c:130-133 | the four pointer updates put a buffer at the front of the circular list |
| CacheMachine.StepKeeps | xv6-labs-2024/kernel/bio.c:58-151 | every interleaved step of any number of threads, also releases of changed and unlogged buffers, and of the log, keeps: refcnt is holders, waiters and pins; one buffer a block; exactly the buffers of logged and not yet installed blocks are pinned |
| CacheRuns.RunInv | xv6-labs-2024/kernel/bio.c:36-151 | that holds in every state of every run |
| CacheRuns.SharedOnlyBlank | xv6-labs-2024/kernel/bio.c:36-89 | in every run, two buffers stand for the same block only if it is block 0 of device 0, which all of them start with |
| CacheRuns.PinsExact | xv6-labs-2024/kernel/log.c:214-235 | in every run a buffer has one pin if its block is in the log header and not installed, and none otherwise, and refcnt is threads plus pins |
| CacheRuns.LoggedStays | xv6-labs-2024/kernel/log.c:68-83 | from log_write to its installation, in any run, a logged block stays in one valid buffer, which bget never recycles |
| CacheRuns.BreadNewest | xv6-labs-2024/kernel/bio.c:92-103 | if every release of a block's buffer found it pinned or equal to the disk, whoever holds the buffer sees the block's newest contents, alone, and no other buffer has that block |
| CacheReads.BreadReturns | xv6-labs-2024/kernel/bio.c:92-103 | the same by the steps of the run: a thread that called bget for a block finds in the buffer that bread returned what the last store into that block put there, by whomever, or what the disk had at the start |
| CacheLoss.NewestKept | xv6-labs-2024/kernel/bio.c:75-136 | in any run, after each release nobody can come to see other than the newest contents of the block before it is stored into again, if and only if each release found the buffer pinned or equal to the disk |
| CacheLoss.DirtyIsLost | xv6-labs-2024/kernel/bio.c:75-87 | from every state in which a buffer is released otherwise, some continuation recycles it and a reader then gets the old contents |
| CacheLoss.FaultLoses | xv6-labs-2024/kernel/fs.c:522-525 | from every boot state there is a run in which a store is released unlogged, as writei does on a fault, the buffer is recycled, and a later reader sees what the disk had |
| Volume.BallocPends | xv6-labs-2024/kernel/fs.c:65-88 | taking the first clear bit marks a block that no inode reaches |
| Volume.ReleaseMark | xv6-labs-2024/kernel/fs.c:91-105 | clearing the bit of a block that was taken out of the map keeps every other bit exact |
| FileSys.Fs.Balloc | xv6-labs-2024/kernel/fs.c:65-88 | the first free block, now marked and zeroed; 0 exactly when every bit is set |
| FileSys.Fs.Bfree | xv6-labs-2024/kernel/fs.c:91-105 | panics exactly when the block is free; otherwise clears its bit and no other |
| FileSys.Fs.Bmap | xv6-labs-2024/kernel/fs.c:382-421 | panics exactly for positions from MAXFILE on; otherwise the block of the file position, allocated if there was none; no other position of any file changes, the bitmap stays exact, and it logs no more than the blocks it lists |
| FileSys.Fs.Itrunc | xv6-labs-2024/kernel/fs.c:425-453 | frees every block of the file, direct and indirect, without a panic; the other files, what they fall back to, and the exactness of the bitmap are kept |
| FileSys.Fs.Iupdate | xv6-labs-2024/kernel/fs.c:225-241 | the inode goes to its block, which is logged |
| FileSys.Fs.Readi | xv6-labs-2024/kernel/fs.c:471-496 | returns the bytes of the file's flat contents from the offset on, as many as asked for, and fewer only at the end of the file; 0 for an offset beyond it or one that overflows; -1 exactly when the destination cannot hold them; neither allocates nor logs anything |
| FileSys.Fs.Writei | xv6-labs-2024/kernel/fs.c:505-539 | -1 exactly for an offset beyond the end or a file that would get too long; otherwise the flat contents become the old ones with the bytes written over them, no other file changes; it stops early exactly at a missing block on a full disk or at a fault; it is a logged write of the counted bytes and then a store of the others into one block, which becomes stray; at most chunks + new chunks + 3 blocks are logged (chunks + 3 with a one-block bitmap) |
| FileSys.Fs.Recycle | xv6-labs-2024/kernel/bio.c:75-87 | when a stray block's buffer is recycled, exactly the bytes of that block become what they were when it was last logged, in whichever file it is |
| FileSys.Fs.Save | xv6-labs-2024/kernel/log.c:178-191 | when a commit saves a stray block, the contents stay and there is nothing to fall back to |
| FileSys.Fs.Fileread | xv6-labs-2024/kernel/file.c:106-130 | the bytes at the offset, as many as asked for or up to the end, and the offset moves past them; outside a transaction, and without allocating or logging anything |
| FileSys.Fs.ReadPieces | xv6-labs-2024/kernel/file.c:106-130 | reading on in pieces of any sizes gives the file from the offset on; a piece is empty exactly when all of it has been read |
| FileSys.Fs.Filewrite | xv6-labs-2024/kernel/file.c:134-181 | the chunks together are one write at the old offset; it returns n if and only if at the start the offset was in the file, the end within the largest file, all n bytes readable and as many blocks free as the write lacks, with the indirect block; without a fault the bytes written are those the offset moves past; no transaction logs more than MAXOPBLOCKS blocks, or 7 with a one-block bitmap |
| DiskSpace.Taken | xv6-labs-2024/kernel/fs.c:65-88 | whatever positions of an inode have been filled, as many blocks have left the free ones: none is lost and none counted twice |
| DiskSpace.DidNotFit | xv6-labs-2024/kernel/fs.c:382-421 | a write that finds a file block missing on a full disk needed more blocks than were free when it began |
| DiskSpace.DidFit | xv6-labs-2024/kernel/fs.c:382-421 | and one that has all its file blocks in the end did not |
| FileSys.ChunkLogBound | xv6-labs-2024/kernel/file.c:150-157 | three blocks of data, at any offset, touch few enough blocks for that |
| FileHistory.ChunksFitLog | xv6-labs-2024/kernel/file.c:150-157 | so with a one-block bitmap no interleaving of such operations overflows the log |
| FileHistory.FaultedWrite | xv6-labs-2024/kernel/fs.c:522-531 | for given size, offset and readable bytes, a faulted write leaves exactly the counted bytes whatever the contents, if and only if the fault falls between two blocks or the faulting block lies beyond the end of the file |
| FileHistory.FaultedCall | xv6-labs-2024/kernel/fs.c:505-539 | every other faulted call of writei returns the count of complete chunks and shows all readable bytes, and if the first uncounted one differs from what was there, the file is not what the counted bytes make |
| FileHistory.FaultUndone | xv6-labs-2024/kernel/fs.c:522-531 | recycling the buffer of the block in which a call faulted leaves exactly the counted bytes, if the block was not stray before |
| ByteHistory.Explains | xv6-labs-2024/kernel/fs.c:425-539 | for any sequence of writes, stores, truncations and losses of blocks, each byte is that of the last write or store over it that was not lost, with no truncation since, or was there from the start; and so is what it would be after a loss |
| FileHistory.Replayed | xv6-labs-2024/kernel/fs.c:425-539 | after any sequence of writei (also short and faulted), itrunc, changes of other files, commits that save a stray block and recycled buffers, the file and what it falls back to are the first ones with the changes played over them |
| FileHistory.WriteMore | xv6-labs-2024/kernel/fs.c:505-539 | every call of writei adds a write, and a store of the bytes that it did not count, to such a history |
| FileHistory.WriteOther | xv6-labs-2024/kernel/fs.c:505-539 | and on another file, a change elsewhere |
| FileHistory.TruncateMore | xv6-labs-2024/kernel/fs.c:425-453 | itrunc adds a truncation |
| FileHistory.SaveMore | xv6-labs-2024/kernel/log.c:178-191 | a commit that saves a stray block adds that |
| FileHistory.RecycleMore | xv6-labs-2024/kernel/bio.c:75-87 | a recycled stray buffer adds a loss |
| FileHistory.LastWriter | xv6-labs-2024/kernel/fs.c:425-539 | every byte of the file is then the one that the last operation over it put there, leaving out stores that a recycled buffer has taken back, with no truncation since, or was there from the start |
| FileHistory.ReadLast | xv6-labs-2024/kernel/fs.c:471-496 | and a readi after it returns those bytes, up to the end of the file |
| FileHistory.GoodExists | xv6-labs-2024/kernel/fs.c:60-105 | a volume that satisfies the invariant, with a file in which a write can fault visibly |
| SleepWakeup.StepKeeps | xv6-labs-2024/kernel/proc.c:444-592 | every interleaved step of scheduler, sleep, wakeup, yield, kill and sleep locks keeps the invariant |
| SleepWakeup.NoLostWakeup | xv6-labs-2024/kernel/proc.c:547-592 | whenever a sleep lock is free and its critical sections are empty, no process waits for it, in any run |
| SleepWakeup.SeenSleeping | xv6-labs-2024/kernel/proc.c:578-592 | every process that decided to wait is SLEEPING on the channel when wakeup, issued under the same lock, gets its p->lock |
| SleepWakeup.OneCpu | xv6-labs-2024/kernel/proc.c:444-508 | no process is on two CPUs, counting a CPU that is still switching away from it |
| SleepWakeup.PickedIsSaved | xv6-labs-2024/kernel/proc.c:458-474 | the scheduler picks a process only when its context is saved and no CPU runs it |
| SleepWakeup.SleepLockExclusive | xv6-labs-2024/kernel/sleeplock.c:21-41 | two processes never both have the same sleep lock |
| PipeWait.StepKeeps | xv6-labs-2024/kernel/pipe.c:58-130 | every step of any number of readers and writers of a pipe, of closing it and of kill keeps the invariant of who waits for it |
| PipeWait.WritersNotLost | xv6-labs-2024/kernel/pipe.c:88-91 | in every run, while nobody has the lock, a writer sleeps only if the pipe is full and somebody can read it |
| PipeWait.LostExactly | xv6-labs-2024/kernel/pipe.c:84-87 | in a run no reader ever sleeps, with the lock free, on a pipe that has bytes or is at its end, if and only if no writer leaves because it was killed while there are bytes in the pipe and a reader sleeps |
| PipeWait.LostSince | xv6-labs-2024/kernel/pipe.c:84-99 | a reader that sleeps so does since such an exit, after which nobody has called wakeup on the readers |
| PipeWait.LostRun | xv6-labs-2024/kernel/pipe.c:77-103 | every pipe that two processes use has a run that comes to that |
| PipeWait.KilledAwake | xv6-labs-2024/kernel/proc.c:598-616 | in a run no killed process sleeps in piperead or pipewrite, if and only if no kill comes between a test of killed and the sleep after it |
| SchedPanics.SchedNeverPanics | xv6-labs-2024/kernel/proc.c:490-508 | in every run with any acquires and releases on every CPU, none of the four panics of sched() can happen: p->lock is held, noff is 1, the process is not RUNNING, interrupts are off |
| SchedPanics.ReleaseNeverPanics | xv6-labs-2024/kernel/spinlock.c:46-66 | release always finds its lock held by this CPU, and its pop_off does not panic |
| SchedPanics.AcquireNeverPanics | xv6-labs-2024/kernel/spinlock.c:21-27 | acquire never finds its lock held by this CPU |
| Spinlock.NestedOff | xv6-labs-2024/kernel/spinlock.c:88-110 | after any matched acquires and releases, in any order, interrupts are on exactly when no lock is held and they were on before; no matched pop_off panics |
| Spinlock.Cpu.PushOff | xv6-labs-2024/kernel/spinlock.c:88-97 | interrupts off, and the state from before remembered at the first level |
| Spinlock.Cpu.PopOff | xv6-labs-2024/kernel/spinlock.c:99-110 | panics exactly with interrupts on or without a matching push_off |
| ExitWait.StepKeeps | xv6-labs-2024/kernel/proc.c:279-435 | every interleaved step of fork, exit, reparent and wait, with its sleeping and waking, keeps the invariant of the process table |
| ExitWait.ParentsAlive | xv6-labs-2024/kernel/proc.c:330-386 | in every reachable state, whoever is a parent is alive: never a zombie or an unused slot |
| ExitWait.FreshSlotChildless | xv6-labs-2024/kernel/proc.c:110-150 | a slot that fork reuses inherits no children |
| ExitWait.ReapedOnce | xv6-labs-2024/kernel/proc.c:390-435 | wait reports no process twice, and each with the status recorded when it became a zombie |
| ExitRuns.StatusArrives | xv6-labs-2024/kernel/proc.c:347-420 | for everything that wait has returned in a run, there is exactly one step before it in which the process of that pid called exit, and the status is the one it gave there |
| ExitRuns.ReapReturns | xv6-labs-2024/kernel/proc.c:399-421 | one wait returns the pid of the zombie child that it frees, with that status |
| ExitRuns.ExitStays | xv6-labs-2024/kernel/proc.c:347-386 | from the call of exit on, the process is on its way out, a zombie or returned by wait, with that status, at every later moment |
| ExitRuns.OneExit | xv6-labs-2024/kernel/proc.c:347-386 | no pid exits twice in a run |
| WaitRuns.NoMissedExit | xv6-labs-2024/kernel/proc.c:374-433 | in every state of every run, a process that sleeps in wait has a child, and no child of it is a zombie or past the wakeup before that |
| WaitRuns.ForkedIsAwaited | xv6-labs-2024/kernel/proc.c:391-430 | after a fork, wait of the parent does not return without a child until it has reaped the new one, unless the parent is killed |
| ExitWait.ReapedByParent | xv6-labs-2024/kernel/proc.c:399-421 | whoever reaps a process is recorded as its maker, or is init |
| ExitRuns.ReapedByForker | xv6-labs-2024/kernel/proc.c:279-421 | whoever reaps a process, and is not init, called the fork that gave it its pid, however often slots were reused in between |
| ExitWait.ExitsGrow | xv6-labs-2024/kernel/proc.c:376-381 | the status of an exited process is never changed |
| UMalloc.Heap.Free | xv6-labs-2024/user/umalloc.c:24-44 | the block joins the free list at its place, merged with what it touches; order, gaps, disjointness and the partition of the heap are kept |
| UMalloc.Heap.Search | xv6-labs-2024/user/umalloc.c:30-32 | free's loop stops, within one round from any freep, exactly at the place of the block |
| UMalloc.Heap.Morecore | xv6-labs-2024/user/umalloc.c:46-61 | fails exactly when sbrk does; otherwise a block at freep or after it is large enough |
| UMalloc.Heap.Malloc | xv6-labs-2024/user/umalloc.c:63-90 | terminates; returns a block that was not in use, of the right size; asks for more memory only if no free block fits, and returns 0 only if that fails; every unit of the heap stays in exactly one block |
| UMalloc.Heap.Take | xv6-labs-2024/user/umalloc.c:75-84 | the whole block or its end goes into use |
| UMalloc.InsertKeeps | xv6-labs-2024/user/umalloc.c:33-42 | inserting and merging keeps the order without touching neighbours, and adds exactly the units of the block |
| UMalloc.StopsAtPlace | xv6-labs-2024/user/umalloc.c:30-32 | the loop's two conditions together hold at exactly one entry of the circular list |
| Virtio.Disk.AllocDesc | xv6-labs-2024/kernel/virtio_disk.c:156-166 | the first free descriptor, or -1 exactly when none is free |
| Virtio.Disk.FreeDesc | xv6-labs-2024/kernel/virtio_disk.c:169-182 | panics exactly for a number out of range or a free descriptor; otherwise the descriptor is free and cleared |
| Virtio.Disk.FreeChain | xv6-labs-2024/kernel/virtio_disk.c:185-197 | frees exactly the three descriptors of the chain |
| Virtio.Disk.Alloc3Desc | xv6-labs-2024/kernel/virtio_disk.c:201-213 | three different free descriptors, or none taken; the latter exactly when fewer than three are free |
| Virtio.Disk.Submit | xv6-labs-2024/kernel/virtio_disk.c:215-281 | queues one request as a header and a chain of three descriptors, without overwriting an unread ring entry; it has to wait exactly when fewer than three descriptors are free; `DiskData.RequestDone` says what the device makes of them |
| DiskData.RequestDone | xv6-labs-2024/kernel/virtio_disk.c:215-291 | in every run, a request whose virtio_disk_rw has returned was served by the device exactly once in between; after a read the buffer holds what the block had then; a write has put into the block, then, what the buffer had at the call and has still |
| DiskData.Transferred | xv6-labs-2024/kernel/virtio_disk.c:235-265 | when the device serves a request by following its descriptors, a read changes that buffer and nothing else, a write that block and nothing else |
| DiskData.DiskFrame | xv6-labs-2024/kernel/virtio_disk.c:215-291 | no other step changes a byte of the disk |
| DiskData.BufferFrame | xv6-labs-2024/kernel/virtio_disk.c:215-291 | nor a buffer, but what its holder stores into it |
| DiskData.Held | xv6-labs-2024/kernel/virtio_disk.c:267-290 | while a request is under way its buffer changes only when that request is served |
| DiskData.ReadSeesWrite | xv6-labs-2024/kernel/virtio_disk.c:215-291 | a read yields what the last write of the block that was served before it had in its buffer when it was submitted |
| DiskData.ReadSeesStart | xv6-labs-2024/kernel/virtio_disk.c:215-291 | or what the disk had at the start |
| DiskData.SectorIs | xv6-labs-2024/kernel/virtio_disk.c:218 | a 32-bit block number stands for its own block if and only if it is below 2^31, and otherwise for one that much lower |
| Virtio.Disk.Intr | xv6-labs-2024/kernel/virtio_disk.c:294-327 | handles every entry of the used ring, none of them with a bad status |
| Virtio.Disk.Finish | xv6-labs-2024/kernel/virtio_disk.c:283-291 | when b->disk is clear the request has been handled, and its chain is freed without a panic |
| Virtio.SubmitKeeps | xv6-labs-2024/kernel/virtio_disk.c:215-281 | descriptors stay partitioned into free ones and disjoint chains, and rings stay exact |
| Virtio.HandledKeeps | xv6-labs-2024/kernel/virtio_disk.c:312-324 | so they do when the handler sees one entry |
| Virtio.EndedKeeps | xv6-labs-2024/kernel/virtio_disk.c:283-291 | and when a chain is freed |
| Virtio.DeviceCompletesKeeps | xv6-labs-2024/kernel/virtio_disk.c:309-310 | so they do when the device has followed the chain and puts its head into the used ring, and the status is 0 |
| Virtio.RunInv | xv6-labs-2024/kernel/virtio_disk.c:156-327 | that holds in every state of every run of driver and device |
| Virtio.HandledOnce | xv6-labs-2024/kernel/virtio_disk.c:312-324 | no request is handled twice in a run, however often the 16-bit indices wrap around |
| Virtio.EndedIsHandled | xv6-labs-2024/kernel/virtio_disk.c:283-291 | when virtio_disk_rw returns, its request has been handled |
| Virtio.SlotFree | xv6-labs-2024/kernel/virtio_disk.c:271-277 | a new head finds a ring slot that no unread entry uses |
| Virtio.Unseen | xv6-labs-2024/kernel/virtio_disk.c:309-324 | the 16-bit indices differ exactly when there is an unseen entry, which is the next completed head, with status 0 and not handled before |
| Pipe.Wraps | xv6-labs-2024/kernel/pipe.c:88-123 | the 32-bit counters tell empty from full and find every slot, for any number of wrap-arounds |
| Pipe.WindowIs | xv6-labs-2024/kernel/pipe.c:88-123 | the bytes that buffer and 32-bit counters describe are those between the true counts |
| Pipe.Pipe.Put | xv6-labs-2024/kernel/pipe.c:96-97 | conservation is kept: what was taken out of the buffer, followed by what buffer and counters hold, is what was put in; the new byte is last |
| Pipe.Pipe.Take | xv6-labs-2024/kernel/pipe.c:121-123 | conservation is kept: the byte read from the buffer is the oldest one, and leaves it |
| Pipe.Pipe.TryWrite | xv6-labs-2024/kernel/pipe.c:76-103 | puts in the bytes in order until done, full or faulted; refuses exactly when no reader is left or the writer is killed |
| Pipe.Pipe.TryRead | xv6-labs-2024/kernel/pipe.c:105-130 | takes the oldest bytes; a byte that cannot be delivered is taken but not counted |
| Pipe.Pipe.Close | xv6-labs-2024/kernel/pipe.c:58-74 | the pipe goes away exactly when both ends are closed |
| Shell.Parser.Gettoken | xv6-labs-2024/user/sh.c:266-309 | the next token, and the cursor after it |
| Shell.Parser.Peek | xv6-labs-2024/user/sh.c:311-321 | skips white space and looks at one character |
| Shell.Parser.Parseline | xv6-labs-2024/user/sh.c:345-360 | terminates on every input and does what the grammar function says |
| Shell.Parser.Parsepipe | xv6-labs-2024/user/sh.c:362-373 | likewise for pipelines |
| Shell.Parser.Parseredirs | xv6-labs-2024/user/sh.c:375-398 | likewise for redirections, the later ones outside |
| Shell.Parser.Parseblock | xv6-labs-2024/user/sh.c:400-414 | likewise for blocks in parentheses |
| Shell.Parser.Parseexec | xv6-labs-2024/user/sh.c:416-447 | likewise for simple commands, with at most nine arguments |
| Shell.Parsecmd | xv6-labs-2024/user/sh.c:328-343 | panics exactly when the grammar does not take the whole line; otherwise every argument and file name in the buffer reads as exactly its token |
| Shell.Nulterminate | xv6-labs-2024/user/sh.c:450-494 | a NUL goes after every word of the command and nowhere else |
| Shell.WordsRead | xv6-labs-2024/user/sh.c:450-494 | no such NUL falls inside another word, so each reads as its token |
| ShellGrammar.AcceptsExactly | xv6-labs-2024/user/sh.c:328-447 | a line parses if and only if it is one of the grammar: pipelines with any number of & after each and ; between them, simple commands with redirections before, between and after at most nine arguments, blocks in parentheses, and any white space; and its tree is the one of the grammar, which is therefore unambiguous |
| ShellGrammar.Parses | xv6-labs-2024/user/sh.c:328-447 | each line of the grammar gives its tree |
| ShellGrammar.Derives | xv6-labs-2024/user/sh.c:328-447 | and every line that parses has a derivation |
| ShellGrammar.RoundTrip | xv6-labs-2024/user/sh.c:328-447 | every tree comes back from its line with only the parentheses that precedence needs, whatever white space is between the tokens |
| ShellGrammar.PrintParses | xv6-labs-2024/user/sh.c:328-447 | in particular from its print |
| Grep.Match | xv6-labs-2024/user/grep.c:72-82 | true exactly when the text is in the declarative language of the pattern |
| Grep.MatchHere | xv6-labs-2024/user/grep.c:85-96 | true exactly when some division of the text from here on matches the items of the pattern |
| Grep.MatchStar | xv6-labs-2024/user/grep.c:99-106 | true exactly when some number of fitting characters can be skipped before the rest matches |
| Grep.PrintLines | xv6-labs-2024/user/grep.c:21-29 | prints the matching complete lines of the buffer and finds the unfinished one |
| Grep.Grep | xv6-labs-2024/user/grep.c:11-35 | for input without NUL and with lines that fit the buffer, prints exactly the complete lines that match, however reads cut the input |
| Grep.SelectedSplit | xv6-labs-2024/user/grep.c:17-34 | lines can be selected piece by piece if the unfinished line is kept |

## Left out

- The page filling of kalloc, kfree and uvmalloc: the build defines LAB_SYSCALL, so pages hold whatever was there.
- The ELF header, the file behind exec and argc: `Exec` starts from the program headers and what the file has for them.
- The accessed and dirty bits, memory ordering and TLB flushes: hardware, taken as atomic.
- uvmfirst and the kernel's own page table: the members for them would be easy ones.
- On-disk encoding of inodes, directories, link counts, iget and iput, and path names.
- Several processes writing the same file at once: the methods of `FileSys` run under the inode's lock.
- mkfs: the initial file system is assumed to have exact bitmaps, marked metadata blocks and no holes.
- Fairness: machines say that a waiter has a waker, not that it runs.
- Requests of more bytes than an int holds in morecore.
- The device of `Virtio` serves a request in one step and puts its head into the used ring once; it reports an error only for
  requests that it cannot carry out.
- Kalloc.KMem.Kfree: what later calls do with a list that a double free has made circular is not modelled.
- Vm.Vm.Mappages: permissions without read, write or execute, which would make a table pointer of the entry, are excluded; no caller passes them.
- CacheMachine.StepKeeps: buffers passed to log_write are those of the log's device, since log_write compares block numbers only.
- LogFile.Log.InstallTrans: bunpin is in `CacheMachine`, not here.
- LogFile.Log.LogWrite: bpin is in `CacheMachine`, not here.
- FileSys.Fs.Iupdate: the encoding of the inode and the other inodes of its block are not modelled.
- FileSys.Fs.Readi: the destination is the number of bytes that it can hold, not a page table.
- FileSys.Fs.Fileread: the destination is the number of bytes that it can hold, as in Readi.
- Vm.Vm.Uvmunmap: freeing entries that count no reference, and clearing counted ones without freeing, are excluded; no caller does either.
- FileSys.Fs.Recycle: that the block is not in the log header, and hence not pinned, is in `CacheMachine`, not here.
- FileSys.Fs.Save: which blocks a commit saves is in `LogMachine`, not here.
- FileSys.Fs.Filewrite: nobody else writes the file between two chunks.
- Virtio.Disk.Submit: blocks beyond the end of the disk, for which the device reports an error and the handler panics, are excluded.
- ExitWait.StepKeeps: sleep and wakeup in wait are single steps, as `SleepWakeup.SeenSleeping` allows; kill is a wakeup and a flag.
- Pipe.Pipe.TryWrite: sleeping and waking are in `PipeWait`; the user buffer is the bytes that can be read.
- PipeWait.StepKeeps: a wakeup is one step, as `SleepWakeup.SeenSleeping` allows, and bytes are only counted, since `Pipe` has their contents.
- Shell.Parser.Parseexec: the arguments are put into the tree at the end, not into a node that is already part of it.
- SleepWakeup.StepKeeps: the condition that sleepers wait for is a sleep lock's flag, as in acquiresleep; pipes are in `PipeWait`, begin_op in `LogMachine`, and wait in `ExitWait`.
- Exec.Exec: exactly MAXARG strings, with which exec stores beyond ustack, and strings of a page or more are excluded; sys_exec passes neither.
- Exec.LoadSegments: that it fails when memory runs out is not stated as an if and only if.
