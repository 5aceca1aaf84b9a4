# xv6, modelled and proved in Dafny

This project models the hard parts of the xv6 kernel for RISC-V and of its user code, and proves
what they are built to guarantee. `dafny verify dfyconfig.toml` checks all of it.

| files | what they model |
|---|---|
| `LogModel`, `LogRuns`, `Log` | the write-ahead log: a machine with crashes between any two block writes, what holds over all its runs, and the code of `kernel/log.c` as a class whose every block write is a step of that machine |
| `LogCache`, `LogCacheInv`, `LogCacheRuns`, `LogCacheLive`, `LogCacheFull` | log and buffer cache as one machine: other threads hold, read and change buffers while a commit goes through its bread, memmove, bwrite, bunpin and brelse one at a time; crash atomicity and what readers see over all its runs, and when a commit gets done |
| `BioModel`, `Bio` | the buffer cache: a machine over all interleavings of its users, and `kernel/bio.c` as a class with its doubly linked LRU list in arrays |
| `ProcModel`, `ProcInv`, `ProcSleep`, `ProcLife`, `ProcRuns`, `ProcCalls` | processes, scheduler, sleep and wakeup, fork, exit and wait, sleep-locks: one machine over all interleavings on any number of CPUs, three layers of invariant, theorems about all runs, and what each system call has done when it returns |
| `Riscv`, `VmModel`, `Vm` | Sv39 page tables and the page allocator: trees in physical pages against the flat map they stand for, an owner for every page |
| `FsBytes`, `FsModel`, `Fs`, `FsLog` | block allocator, inode block map, file contents, down to the bits of the free map and the words of indirect blocks; and the file system on top of the log, across crashes |
| `MallocModel`, `Malloc` | the K&R allocator of `user/umalloc.c` |
| `VirtioModel`, `Virtio` | the virtio disk driver, its interrupt, and the device, which may act between any two stores of the driver, and moves data, writes the status, enters the head and raises its index in separate acts |
| `Grep` | the regular expressions of `user/grep.c` |
| `Shell`, `ShellSyntax`, `ShellNul`, `ShellRead` | the parser of `user/sh.c`, exact for a grammar of command lines, and its C strings |
| `Common`, `DiskTypes`, `Sets` | shared types and facts about finite sets |

Three ideas carry most proofs. A *history* variable (commit groups, returned pids, the latest contents of a block)
lets an invariant speak about the past. An *owner* for every page, disk block, heap unit or descriptor makes
"exactly one place" hold by construction, and the invariant ties each owner to the real data. And *panics* are
either proved unreachable or returned as failures, with the exact condition.

Invariants are often written `forall k {:trigger Asked(k)} :: Asked(k) ==> P`, where `Asked` holds of everything. This
is P itself, but only a proof that mentions `Asked` sees it, so that code which merely keeps P is cheap to verify; a lemma
`ValidIs`, `OkIs` or the like opens it. `Common` explains this too.

What the model takes from outside: the contents of the disk and of memory at the start, the answers of sbrk, whether
copies to and from a user's memory succeed (`limit`), which thread runs next, when the timer interrupts, when the
machine crashes, and when the device acts.

Where the code and its comments differ, the code is followed:

- `kernel/log.c:216-229` tests for a full log before it looks for absorption, so a system call needs budget left even
  to write a block again; `LogRuns.NoLogPanic` asks for it.
- `kernel/bio.c:8-14` gives rules for callers. `Bio.BufCache.Brelse` needs one more: data that is not on disk must be
  pinned, which is what log_write does.
- `kernel/param.h:13` says that no system call writes more than MAXOPBLOCKS blocks. A truncation does, exactly when the
  blocks of the file have at least that many bitmap blocks (`Fs.FileSystem.TruncOp`), which takes a disk of more than
  nine of them (`Fs.FewMaps`, `Fs.Scattered`).
- `kernel/param.h:14-15` makes the log as large as the buffer cache. A commit needs one buffer more than the log has
  entries (`LogCacheLive.CommitCompletes`), so with a full log bget panics (`LogCacheFull.FullLogStops`).

## Model

| member | source | states |
|---|---|---|
| `LogModel.HeaderRoundTrip` | kernel/log.c:88-115 | read_head gets back the block numbers that write_head stored, whatever was in the header block |
| `LogModel.RecoverIdempotent` | kernel/log.c:67-124 | a crash after any number of blocks of recovery, or at its end, does no harm: recovering again gives what the first recovery would have given |
| `LogModel.StepInv` | kernel/log.c:67-236 | every single step (one block write, a begin_op, log_write or end_op decision, a crash anywhere) keeps the invariant that ties disk, header, cache and history together |
| `LogRuns.ExecInv` | kernel/log.c:67-236 | every state of every run satisfies that invariant |
| `LogModel.RecoverIsDurable` | kernel/log.c:67-124 | in every state, recovery of the disk as it is would give the contents after the durable commit groups |
| `LogRuns.CrashAtomicity` | kernel/log.c:67-204 | stop any run, with any number of earlier crashes also inside recovery, after any step: recovery restores the home blocks after a whole number of commit groups, and no fewer than those whose end_op has returned |
| `LogRuns.EveryDisk` | kernel/log.c:67-204 | every content the disk has had in a run, write by write, is safe in that sense; whatever had been acknowledged at any moment up to that write is among what survives, and nothing has been lost since |
| `LogRuns.AllOrNothing` | kernel/log.c:10-22 | the writes of one system call are all in the surviving groups or all outside them |
| `LogRuns.RecoveryRestores` | kernel/log.c:117-124 | recovery that runs to its end leaves exactly the recovered contents on disk and an empty log |
| `LogRuns.AcknowledgedStays` | kernel/log.c:145-204 | what had been acknowledged at any point of a run is a prefix of what survives at every later point, crashes included |
| `LogRuns.ReturnAcknowledges` | kernel/log.c:145-176 | when the committing end_op returns, every group logged so far is durable and acknowledged |
| `LogRuns.SpaceOverRuns` | kernel/log.c:126-143 | log entries plus the reservations of outstanding system calls never exceed LOGBLOCKS in any run whose system calls keep to MAXOPBLOCKS |
| `LogRuns.NoLogPanic` | kernel/log.c:148-236 | in every such run a system call with budget left can log and leave: "too big a transaction", "log_write outside of trans" and "log.committing" are unreachable |
| `BioModel.RoomToGet` | kernel/bio.c:59-89 | bget finds a buffer whenever fewer buffers are referenced or pinned than there are |
| `BioModel.FoundOrFree` | kernel/bio.c:59-89 | bget returns the buffer that caches the block, or one that no caller references, holds or pins |
| `BioModel.StepInv` | kernel/bio.c:59-151 | every cache step of any thread keeps: at most one buffer per block, exact reference counts, and unwritten data only in locked or pinned buffers |
| `BioModel.InvTransparent` | kernel/bio.c:91-103 | under that invariant a locked, valid buffer holds the latest contents of its block |
| `BioModel.CacheTransparent` | kernel/bio.c:59-151 | over every run from binit, whatever the interleaving, the cache is transparent |
| `BioModel.LatestChangesByHolder` | kernel/bio.c:105-137 | what a block reads as changes only by a store of the thread that holds its buffer |
| `Bio.BufCache.constructor` | kernel/bio.c:37-53 | binit builds a circular doubly linked list of all buffers, an initial state of the cache machine |
| `Bio.BufCache.PushFront` | kernel/bio.c:43-52 | linking a buffer in behind the head gives the linked list of the sequence with that buffer in front |
| `Bio.BufCache.Unlink` | kernel/bio.c:128-129 | unlinking a buffer gives the linked list of the sequence without it |
| `Bio.BufCache.MoveToFront` | kernel/bio.c:126-134 | brelse turns the list into the sequence with the buffer moved to the front, all links right |
| `Bio.BufCache.Scan` | kernel/bio.c:64-74 | the walk along next finds the first buffer that caches the block, or finds there is none |
| `Bio.BufCache.ScanFree` | kernel/bio.c:76-87 | the walk along prev finds the least recently used buffer that nobody references, or finds there is none |
| `Bio.BufCache.Bget` | kernel/bio.c:59-89 | does exactly the machine step of taking a reference and then the lock; it fails exactly when no buffer can be used, and then changes nothing |
| `Bio.BufCache.Bread` | kernel/bio.c:93-103 | returns a locked buffer with the latest contents of the block, reading the disk when need be, and leaves every other buffer alone; cannot fail while a buffer is unused |
| `Bio.BufCache.Bwrite` | kernel/bio.c:107-112 | writes exactly the buffer's block to the disk |
| `Bio.BufCache.Brelse` | kernel/bio.c:117-137 | gives up lock and reference, and moves the buffer to the head of the list exactly when nobody uses it any more; requires, as the callers see to, that the data is on disk or pinned |
| `Bio.BufCache.Bpin` | kernel/bio.c:139-144 | adds one reference that keeps the buffer cached |
| `Bio.BufCache.Bunpin` | kernel/bio.c:146-151 | drops that reference and changes nothing else |
| `Bio.BufCache.CopyToLog` | kernel/log.c:184-191 | one turn of write_log: the log block holds the latest contents of the home block, in cache and on disk |
| `Bio.BufCache.InstallHome` | kernel/log.c:72-83 | one turn of install_trans in recovery: the home block holds what the log block does, in cache and on disk |
| `Bio.BufCache.InstallAndUnpin` | kernel/log.c:72-83 | the same in a commit, where the home buffer is also unpinned |
| `Log.Log.constructor` | kernel/log.c:54-61 | initlog up to recovery starts a run of the log machine on the disk it finds |
| `Log.Log.ReadHead` | kernel/log.c:88-98 | the in-memory header becomes what the disk header says |
| `Log.Log.WriteHead` | kernel/log.c:104-115 | the header block is overwritten with the in-memory header, in one block write |
| `Log.Log.WriteLog` | kernel/log.c:180-192 | the steps it takes are copy steps of the log machine, one for each logged block |
| `Log.Log.InstallTrans` | kernel/log.c:67-84 | the steps it takes are install steps of the machine, in recovery and in a commit, one for each logged block |
| `Log.Log.RecoverFromLog` | kernel/log.c:118-124 | boot ends with an empty log and the machine running, having taken only recovery steps and added no commit group; cannot fail while two buffers are not pinned |
| `Log.Log.Commit` | kernel/log.c:195-204 | the loops and header writes are, in order, the commit steps of the machine; it ends with an empty log, and cannot fail while two buffers are not pinned |
| `Log.Log.BeginOp` | kernel/log.c:128-143 | admits a system call exactly when no commit is under way and its full reservation fits |
| `Log.Log.EndOp` | kernel/log.c:148-176 | the last system call out commits, and when it returns all logged groups are acknowledged |
| `Log.Log.FindLogged` | kernel/log.c:226-229 | the search for absorption finds the first entry for the block, or finds there is none |
| `Log.Log.LogWrite` | kernel/log.c:216-236 | panics exactly when the header is full or no system call is open; else it records or absorbs the block, pins its buffer once, and takes the log_write step of the machine |
| `Log.Log.UpdateBlock` | kernel/log.c:206-215 | bread, change, log_write, brelse: the disk is untouched, the cache reads the new contents, and the write joins the open group |
| `Log.Log.CrashSafe` | kernel/log.c:67-236 | wherever the code is between two steps, recovering the disk restores a whole number of commit groups, no fewer than those acknowledged |
| `Log.Log.AlwaysSafe` | kernel/log.c:67-236 | the same after every single block write the code has ever made, with nothing lost that had been acknowledged at any moment up to that write |
| `LogCacheInv.UserSound` | kernel/log.c:67-236 | a thread that reads or releases a buffer at any time, also one that a commit is copying or installing, finds what it releases on disk or pinned |
| `LogCacheInv.CleanOrPinned` | kernel/bio.c:117-137 | whoever holds a block, other than the one thread that is storing into it, has what the log machine says it holds, on disk or pinned |
| `LogCacheRuns.TurnRuns` | kernel/log.c:67-192 | the bread, memmove, bwrite, bunpin and brelse of a turn of write_log, install_trans, write_head or read_head, done one at a time, come to the one step of the log machine, and end with no buffer held |
| `LogCacheRuns.StepSound` | kernel/log.c:67-236 | in a joint machine of the cache and the log, with any number of threads taking, holding, changing and releasing buffers at any time of a commit: every step is one that the rules of the cache allow and, where the log is concerned, a step of the log machine; brelse never drops data that is nowhere else, bunpin finds its pin and the data on disk |
| `LogCacheRuns.RunInv` | kernel/log.c:67-236 | every state of every run of the joint machine satisfies its invariant, and its log part is a state of a run of the log machine |
| `LogCacheRuns.ConcurrentAtomicity` | kernel/log.c:10-22 | stop any run of the joint machine, with any threads in the middle of any bread, change or brelse: the disk found then recovers to a whole number of commit groups, none lost that had been acknowledged, and what is durable or acknowledged then stays so |
| `LogCacheRuns.ReadersSee` | kernel/bio.c:8-14 | whoever has a buffer locked and has not stored into it sees all that system calls have logged so far, also while a commit copies, writes and installs that block |
| `LogCacheRuns.LogsWhatWasStored` | kernel/log.c:206-236 | what log_write logs, for the system call it is given, is what its caller last stored into the buffer, whatever other threads have done since; the buffer may then be released |
| `LogCacheRuns.PinCount` | kernel/log.c:67-84 | at every moment exactly one buffer is pinned for each log entry that has not been installed |
| `LogCacheLive.Completes` | kernel/log.c:117-204 | a commit or a recovery is brought to its end by the steps of its own thread, when nobody else holds a buffer and not all buffers are pinned |
| `LogCacheLive.CommitCompletes` | kernel/log.c:180-204 | a commit that finds no buffer held can be done, by whatever steps of all threads, exactly if the log has fewer entries than there are buffers |
| `LogCacheFull.FullLogStops` | kernel/param.h:14-15 | LOGBLOCKS equals NBUF: from power on, three system calls that log MAXOPBLOCKS blocks each, as begin_op admits them, lead to a commit that no steps but a crash get past, because bget finds every buffer pinned |
| `ProcInv.WorkCore` | kernel/proc.c:257-608 | every step of every thread keeps the lock discipline: a lock is held by the CPU whose code says so, a process is where its state says, and a half-made process belongs to one kfork |
| `ProcInv.ScheduleCore` | kernel/proc.c:422-460 | so does every step of the scheduler |
| `ProcSleep.WorkSleep` | kernel/proc.c:540-584 | every step keeps that a process on its way to sleep has not been passed over by a wakeup of its channel, and that sleep-lock holders are recorded |
| `ProcSleep.VisitedIsParked` | kernel/proc.c:571-584 | a process that wakeup finds on its channel is fully asleep, because wakeup holds both its lock and the condition lock |
| `ProcSleep.PendingStays` | kernel/proc.c:571-584 | a wakeup that has yet to reach a sleeper still has yet to reach it after any step, unless it just woke it |
| `ProcLife.WorkLife` | kernel/proc.c:257-412 | every step keeps parents, zombies and pids in order |
| `ProcLife.AcquireLife` | kernel/proc.c:257-412 | so does every acquire of a spin-lock |
| `ProcLife.ScheduleLife` | kernel/proc.c:422-460 | so does every step of the scheduler |
| `ProcRuns.Boots` | kernel/proc.c:220-232 | there is an initial state for any number of processes, CPUs and sleep-locks |
| `ProcRuns.RunInv` | kernel/proc.c:220-608 | every state of every run, over all interleavings on any number of CPUs, satisfies the whole invariant |
| `ProcRuns.StaysInRange` | kernel/proc.c:257-608 | no step the code may take goes outside the tables of processes and sleep-locks |
| `ProcRuns.WantsIs` | kernel/spinlock.c:21-43 | what a CPU waits for is the lock that its next step acquires |
| `ProcRuns.NoLockCycle` | kernel/spinlock.c:21-43 | spin-locks cannot deadlock in any run: a CPU never waits for a lock of its own, and the holder of the lock it waits for waits for none, or holds a condition lock and waits for a p->lock whose holder waits for none |
| `ProcRuns.NoTwoCpus` | kernel/proc.c:422-498 | no process is ever current on two CPUs |
| `ProcRuns.FreedStackIdle` | kernel/proc.c:156-172 | freeproc, called from kwait or from a failing kfork, never gets a process that a CPU runs or whose kernel stack a CPU uses |
| `ProcRuns.SchedNeverPanics` | kernel/proc.c:470-487 | every switch is made with p->lock alone held and the state not RUNNING, and no thread runs on after its exit |
| `ProcRuns.WakeupMissesNobody` | kernel/proc.c:540-584 | when a wakeup has gone round the table nobody else is asleep on its channel or on the way to sleep there |
| `ProcRuns.OneSleepLockHolder` | kernel/sleeplock.c:22-41 | at most one process is between acquiresleep and releasesleep, and the lock records it |
| `ProcRuns.FreeLockNoSleeper` | kernel/sleeplock.c:22-41 | while a sleep-lock is free and its spin-lock is free nobody is asleep on it |
| `ProcRuns.NoLostChild` | kernel/proc.c:324-412 | whenever wait_lock is free nobody asleep in kwait, or on the way to sleep there, has a ZOMBIE child |
| `ProcRuns.ZombieHasParent` | kernel/proc.c:305-363 | every ZOMBIE has a parent that is neither unused, nor being made, nor itself a ZOMBIE |
| `ProcRuns.ReapedOnce` | kernel/proc.c:368-412 | no two steps of a run return the same pid from kwait |
| `ProcCalls.RunCalls` | kernel/proc.c:257-412 | in every run, at every point of its code, a thread knows what it should: in kwait the flag havekids is set exactly if one of the slots passed is a child of the caller, and what kwait is about to return is right; past its loop acquiresleep holds the lock |
| `ProcCalls.AcquireReturns` | kernel/sleeplock.c:22-31 | acquiresleep returns with the sleep-lock locked, by the caller and nobody else, over every run |
| `ProcCalls.ReleaseReturns` | kernel/sleeplock.c:34-41 | releasesleep returns with it free and nobody asleep on it |
| `ProcCalls.WaitReturns` | kernel/proc.c:368-412 | kwait returns, inside wait_lock, the pid of a ZOMBIE child of the caller that it has reaped in this call, or -1 and then no slot is a child of the caller, or the caller has been killed, or copyout has failed |
| `ProcCalls.SleepsForReason` | kernel/proc.c:402-410 | a thread goes to sleep in kwait only having children, none of them a ZOMBIE, and not being killed; in acquiresleep only while the lock is locked |
| `ProcCalls.ForkReturns` | kernel/proc.c:257-303 | kfork returns with a slot that was unused when taken, now RUNNABLE with the next pid and the caller as parent, and nothing else changed; or with that slot freed again when memory ran out; or having seen every slot in use |
| `ProcCalls.KillReturns` | kernel/proc.c:590-608 | kkill returns having set the flag of a process with that pid, awake if it was asleep, and changed nothing else; or having seen every slot with another pid |
| `ProcCalls.ExitNeverReturns` | kernel/proc.c:324-363 | kexit does not return |
| `ProcCalls.ExitLeaves` | kernel/proc.c:308-363 | at its end the process is a ZOMBIE and the parent of nobody |
| `ProcCalls.Lifecycle` | kernel/proc.c:110-608 | who changes what in the process table, when, and to what, for every step of every run: the whole diagram of states, and parents, channels, killed flags and pids; nextpid moves on exactly when a slot is taken |
| `ProcCalls.YieldReturns` | kernel/proc.c:491-498 | a thread that the timer has interrupted goes on exactly where it was, and not before it has been RUNNABLE |
| `ProcCalls.PreemptYields` | kernel/proc.c:491-498 | the interrupt leads into yield |
| `ProcCalls.CallsEnd` | kernel/proc.c:257-608 | no call goes round in circles: every step of a thread brings it nearer to its return, to sleep or to its end |
| `ProcCalls.SchedulerGoesRound` | kernel/proc.c:422-460 | a scheduler comes nearer to every slot with each slot it is done with, and chooses a RUNNABLE one that it looks at |
| `Riscv.RoundUp` | kernel/riscv.h:369 | the least page boundary not below the address |
| `Riscv.RoundDown` | kernel/riscv.h:370 | the greatest page boundary not above the address |
| `Riscv.PxOfPage` | kernel/riscv.h:392-394 | the three indices of an address depend on its page number only |
| `Riscv.PxInjective` | kernel/riscv.h:391-400 | two pages below MAXVA with the same three indices are the same page |
| `Riscv.PxOfVpn` | kernel/riscv.h:391-400 | any three indices are those of the page number put together from them |
| `Riscv.PteRoundTrip` | kernel/riscv.h:372-389 | address and flags come back out of an entry's word, and the zero word is an invalid entry |
| `VmModel.NoSharing` | kernel/vm.c:85-97 | no physical page is mapped at two places, in one table or in two |
| `VmModel.UserIs` | kernel/vm.c:85-97 | a valid entry below TRAPFRAME leads to a page of bytes owned by that table at that place; those above are not user pages |
| `Vm.FreeIsUnused` | kernel/kalloc.c:42-82 | a page on the free list is no table of any level and no mapped user page |
| `Vm.Kernel.Boot` | kernel/kalloc.c:27-31 | all whole pages of the range belong to the caller |
| `Vm.Kernel.Freerange` | kernel/kalloc.c:34-40 | every whole page of the range ends up on the free list, once |
| `Vm.Kernel.Kfree` | kernel/kalloc.c:47-63 | pushes the page; the list stays linked through the pages, without repetition, and holds exactly the free pages |
| `Vm.Kernel.Kalloc` | kernel/kalloc.c:69-82 | pops a free page and junk-fills it; fails exactly when the list is empty |
| `Vm.Kernel.UvmCreate` | kernel/vm.c:179-187 | a new table that maps nothing, other tables mapping what they did |
| `Vm.Kernel.Walk` | kernel/vm.c:98-115 | finds the entry of the page in the flat map the tree stands for; with alloc it adds empty tables only and changes no mapping, and fails only when memory has run out |
| `Vm.Kernel.MapPages` | kernel/vm.c:146-174 | the flat map gains exactly the range (on failure a prefix of it), and user pages pass to the table |
| `Vm.Kernel.UvmUnmap` | kernel/vm.c:193-212 | the flat map loses exactly the range, and exactly its pages are freed or handed back; holes are fine |
| `Vm.UnmappedView` | kernel/vm.c:193-258 | afterwards the range reads as zeros and everything else as before |
| `Vm.Kernel.UvmDealloc` | kernel/vm.c:247-258 | frees exactly the pages between the two rounded sizes |
| `Vm.Kernel.UvmAlloc` | kernel/vm.c:217-240 | maps zero pages for exactly the new range; it fails only with fewer than three free pages for each new one, and then everything is undone but for empty tables |
| `Vm.ZeroedView` | kernel/vm.c:217-240 | growing eagerly cannot be told, by reading, from leaving the pages to vmfault |
| `Vm.Kernel.Freewalk` | kernel/vm.c:263-278 | frees the table and all tables below it and nothing else; with no leaf left the panic is unreachable |
| `Vm.Kernel.UvmFree` | kernel/vm.c:283-288 | returns exactly the pages the tree owned, tables and user pages; other tables and pages are untouched |
| `Vm.FreedAll` | kernel/vm.c:283-288 | unmapping and then freeing the tables frees all that the table owned |
| `Vm.Kernel.UvmCopy` | kernel/vm.c:297-324 | on success each page of the parent is copied to a page of the child's own; it fails only with fewer than three free pages for each one, and then the child has no mapping and nothing else changed |
| `Vm.CopiedView` | kernel/vm.c:297-324 | after a successful copy the child reads what the parent reads, from other pages |
| `Vm.Kernel.VmFault` | kernel/vm.c:453-473 | maps one zero page for an unmapped address below the size, no view of any process changes, and it fails only for an address beyond the size, a page already mapped or fewer than three free pages |
| `Vm.FaultedView` | kernel/vm.c:453-473 | a page mapped on demand reads as the missing page did |
| `Vm.Kernel.CopyIn` | kernel/vm.c:381-403 | success returns exactly the bytes of the user view, across pages, and only if every page of the range may be read by the user; failure names a page that may not, or that there was no memory for; no view changes, and no page changes hands but for free ones that become pages of this table |
| `Vm.Kernel.CopyOut` | kernel/vm.c:343-375 | the user view changes by exactly the bytes written, all of them on success, a prefix up to the refusing page on failure, and every page written to is one the user may write; no other view changes, and no page changes hands but for free ones that become pages of this table |
| `FsBytes.WordSet` | kernel/fs.c:430-436 | a stored word of an indirect block is read back and no other word changes |
| `FsBytes.BitSet` | kernel/fs.c:67-106 | setting or clearing a bit of the free map changes that bit only |
| `FsModel.FlipBit` | kernel/fs.h:47-51 | flipping the bit of a block together with its owner keeps the free map right for all blocks |
| `FsModel.LinkDirect` | kernel/fs.c:410-418 | a fresh block stored in the inode keeps the ownership invariant and changes one block of one file |
| `FsModel.LinkIndirect` | kernel/fs.c:423-428 | a fresh, zeroed indirect block keeps it and shows no stale pointer |
| `FsModel.LinkEntry` | kernel/fs.c:430-440 | so does a fresh block stored in the indirect block |
| `FsModel.UnlinkDirect` | kernel/fs.c:454-459 | freeing a direct block and clearing its address keeps it |
| `FsModel.UnlinkEntry` | kernel/fs.c:463-468 | freeing a block named in the indirect block keeps it, for the entries not yet gone over |
| `FsModel.UnlinkIndirect` | kernel/fs.c:469-471 | freeing the indirect block last restores it in full |
| `Fs.MarkedIs` | kernel/fs.c:65-106 | the free map marks exactly the blocks below the data and the blocks that some inode names, so no block is lost |
| `Fs.NamedOnce` | kernel/fs.c:395-401 | no block is named at two places: not by two files, not twice by one, not as data and as an indirect block |
| `Fs.FileSystem.Format` | mkfs/mkfs.c:237-250 | a disk with just the blocks below the data marked and no inode in use satisfies the whole invariant |
| `Fs.ReadStored` | kernel/fs.c:303-316 | ilock reads back the inode that iupdate stored |
| `Fs.FileSystem.Mount` | kernel/fs.c:294-318 | the inodes of a good disk are read off it, and the file system they make is valid |
| `Fs.FileSystem.Balloc` | kernel/fs.c:67-89 | takes a free block, marks and zeroes it; fails exactly when no block is free, and disturbs no file; it logs just that block and its bitmap block |
| `Fs.FileSystem.Bfree` | kernel/fs.c:93-106 | clears the bit of the block only; for a block with an owner the panic "freeing free block" is unreachable |
| `Fs.FileSystem.Bmap` | kernel/fs.c:406-444 | returns the block of the file, allocating what is missing and nothing else; also where it runs out of space halfway every marked block has a place in some file; it logs what is new, its bitmap blocks and an indirect block |
| `Fs.FileSystem.MapBlock` | kernel/fs.c:406-444 | bmap changes no byte of any file |
| `Fs.FileSystem.Iupdate` | kernel/fs.c:227-242 | the inode's slot on disk holds the inode, all others what they held |
| `Fs.FileSystem.Itrunc` | kernel/fs.c:449-476 | frees exactly the blocks of the file, direct, indirect and named in the indirect block; other files keep every byte; it logs exactly the bitmap blocks of those blocks and the block of the inode |
| `Fs.FileSystem.TruncOp` | kernel/param.h:13 | as a transaction it logs at most MAXOPBLOCKS blocks exactly if the blocks of the file have fewer bitmap blocks than that |
| `Fs.TruncCount` | kernel/fs.c:449-476 | a truncation logs one block more than the file has bitmap blocks |
| `Fs.FewMaps` | kernel/param.h:16-24 | on a disk of at most nine bitmap blocks, as all but the largest configuration make, every file meets that condition |
| `Fs.Scattered` | kernel/param.h:16-17 | on the disk of 200000 blocks there is a good file system with a file that does not |
| `Fs.FileSystem.Readi` | kernel/fs.c:495-519 | returns exactly the slice of the file clipped to its size, and allocates and writes nothing |
| `Fs.Clipped` | kernel/fs.c:500-503 | as many bytes as were asked for and the file still has, and none if the range wraps around or begins beyond the end |
| `Fs.ChunkWritten` | kernel/fs.c:543-550 | copying a chunk into one data block splices one file and no other |
| `Fs.FileSystem.WriteLoop` | kernel/fs.c:539-551 | each turn splices the next chunk; what it logs is accounted for block by block: data blocks spanned, a bitmap block for each new one, the indirect block |
| `Fs.FileSystem.Writei` | kernel/fs.c:529-562 | splices the first r source bytes at the offset, size becomes the larger of the old one and the end, other files are unchanged, no holes appear, no block is lost; -1 exactly for a range that is not allowed |
| `Fs.LogCount` | kernel/file.c:149-155 | those blocks come to fewer than MAXOPBLOCKS for a chunk of filewrite, on a disk of any size: where it spans four data blocks the first is an old one |
| `Fs.FileSystem.WriteOp` | kernel/file.c:149-166 | one transaction of filewrite logs, with the inode block, at most MAXOPBLOCKS different blocks, on a disk of any size; replaying the writes it logged gives the disk |
| `Fs.FileSystem.FileWrite` | kernel/file.c:149-173 | the chunks together splice one prefix of the source, all of it exactly when the length is returned, and it stops short only for a bad range, a failed copy or a full disk |
| `FsLog.ReplayIs` | kernel/log.c:206-236 | what the log records of a transaction, block contents as words, replays the transaction |
| `FsLog.Machine.constructor` | kernel/fs.c:41-48 | after recovery, the file system that the recovered disk holds |
| `FsLog.Boot` | kernel/log.c:54-63 | binit, recovery and mounting, from any disk that recovers to a good file system: what comes up is that file system, byte for byte, with the whole invariant |
| `FsLog.Restart` | kernel/log.c:117-124 | stop the machine after any block write it has made and boot it from the disk it then had: it comes up with the file system of one transaction, none missing that had returned by then |
| `FsLog.PowerCut` | kernel/log.c:117-124 | between transactions: it comes up with every file and every byte |
| `FsLog.FirstBoot` | mkfs/mkfs.c:237-250 | the disk that mkfs makes boots, to a file system with no file |
| `FsLog.Machine.Send` | kernel/log.c:206-236 | a transaction within its budget passes all its writes to the log; no panic of log_write is reached and no buffer is wanting |
| `FsLog.Machine.Commit` | kernel/log.c:128-204 | a transaction through begin_op, log_write and end_op is one commit group, and acknowledged when end_op returns: from that disk write on it is among what survives |
| `FsLog.Machine.Write` | kernel/file.c:149-166 | a chunk of filewrite through the log: it never fails for want of log space or buffers, and leaves the file system that log, cache and disk agree on |
| `FsLog.Machine.Trunc` | kernel/fs.c:449-476 | the same for a truncation that the allowance covers, by the exact condition of TruncOp |
| `FsLog.Machine.CacheIs` | kernel/log.c:206-215 | between transactions both the cache and the disk hold the blocks the file system has written |
| `FsLog.Machine.Survives` | kernel/log.c:10-22 | after every single block write there has been, a crash leaves a disk that recovers to the file system as some whole number of transactions left it: free map right, no block lost or named twice, no holes; no transaction that had returned by then is missing |
| `MallocModel.LiveDisjoint` | user/umalloc.c:24-90 | allocated blocks never overlap |
| `MallocModel.LiveNotFree` | user/umalloc.c:24-90 | no allocated block overlaps a free one |
| `MallocModel.FreeRun` | user/umalloc.c:24-44 | every run of free units lies within one block of the list: the list is fully coalesced |
| `Malloc.OneWrap` | user/umalloc.c:30-32 | along the list addresses go up without touching, except for the one step back to base |
| `Malloc.StopsAt` | user/umalloc.c:30-32 | free's two tests hold at exactly one element of the list, the last below the block |
| `Malloc.Heap.constructor` | user/umalloc.c:21-22 | a heap that malloc has not been called on |
| `Malloc.Heap.FindSlot` | user/umalloc.c:30-32 | free's walk from freep ends, at that element |
| `Malloc.Heap.FreeBlock` | user/umalloc.c:25-44 | exactly the units of the block become free; the list stays circular, ordered, disjoint and coalesced |
| `Malloc.Inserts` | user/umalloc.c:33-43 | in all four cases of merging the result is such a list |
| `Malloc.Heap.MoreCore` | user/umalloc.c:47-61 | exactly the granted units join the free ones; on failure nothing changes |
| `Malloc.Heap.Regrow` | user/umalloc.c:86-88 | after growing, a search from freep meets a big enough block before it has gone round |
| `Malloc.Heap.TakeFrom` | user/umalloc.c:75-84 | exactly n free units become the new block, cut from the tail or the whole block |
| `Malloc.AllPassed` | user/umalloc.c:74-88 | a search that has come round without success shows that no run of free units is long enough |
| `Malloc.Heap.Alloc` | user/umalloc.c:64-90 | terminates, and returns a new block of the rounded size made from free units alone, every other unit keeping its owner; it asks sbrk, and returns 0, only when no run of free units is long enough |
| `VirtioModel.Partition` | kernel/virtio_disk.c:156-213 | each descriptor is free or one of the three of exactly one request |
| `VirtioModel.WrapExact` | kernel/virtio_disk.c:312-323 | the 16-bit comparison of ring indices decides exactly whether entries are left |
| `VirtioModel.AvailRoom` | kernel/virtio_disk.c:271-277 | no entry of the available ring is overwritten before the device has taken it |
| `VirtioModel.UsedRoom` | kernel/virtio_disk.c:309-324 | nor an entry of the used ring before the driver has seen it |
| `Virtio.VirtioDisk.constructor` | kernel/virtio_disk.c:124-146 | all descriptors free, rings empty, for any behaviour of the device |
| `Virtio.VirtioDisk.AllocDesc` | kernel/virtio_disk.c:157-166 | takes a free descriptor, fails exactly when there is none |
| `Virtio.VirtioDisk.FreeDesc` | kernel/virtio_disk.c:170-182 | gives back a held descriptor, field by field while the device looks on, and wakes all waiters; its panics are unreachable |
| `Virtio.VirtioDisk.Alloc3` | kernel/virtio_disk.c:202-213 | three different descriptors, or none and no change, exactly as three are free or not |
| `Virtio.VirtioDisk.FreeChain` | kernel/virtio_disk.c:186-197 | following the links frees exactly the three descriptors of the request |
| `Virtio.VirtioDisk.StartRw` | kernel/virtio_disk.c:216-281 | posts the request, or waits exactly when fewer than three descriptors are free, while the device may act between any two stores; the device cannot see the request before it is complete |
| `Virtio.VirtioDisk.DeviceTake` | kernel/virtio_disk.c:271-281 | the device takes posted requests once each, in order |
| `Virtio.VirtioDisk.DeviceCopy` | kernel/virtio_disk.c:235-267 | a device that follows the descriptors moves data once between the request's block and buffer and touches nothing else, whatever it and the driver do before and after |
| `Virtio.VirtioDisk.DeviceTell` | kernel/virtio_disk.c:261-265 | the status byte it writes is that of the request |
| `Virtio.VirtioDisk.DeviceEnter` | kernel/virtio_disk.c:309-324 | the entry it puts on the used ring overwrites none that the driver has yet to see |
| `Virtio.VirtioDisk.DeviceRaise` | kernel/virtio_disk.c:309-324 | raising the index reports that request, whose data has been moved by then |
| `VirtioModel.PublishStep` | kernel/virtio_disk.c:270-279 | raising the index of the available ring hands over a request whose three descriptors, header, status and ring entry are all in place |
| `Virtio.VirtioDisk.Format` | kernel/virtio_disk.c:235-271 | the stores of a request touch no descriptor, status or buffer of another one, and what the device does meanwhile touches nothing of this one |
| `Virtio.VirtioDisk.Publish` | kernel/virtio_disk.c:276-277 | that store alone makes the request one that the device may take |
| `Virtio.VirtioDisk.IntrOne` | kernel/virtio_disk.c:312-324 | a completion clears exactly its own buffer, once; the count is raised in a later store |
| `Virtio.VirtioDisk.Intr` | kernel/virtio_disk.c:295-327 | every completion there was when it began has been seen, also those that come in meanwhile, and its buffer is no longer busy |
| `Virtio.VirtioDisk.FinishRw` | kernel/virtio_disk.c:283-289 | the request is gone, its three descriptors are free and nobody waits for descriptors, while the device acts on the others; the data has been moved, and the buffer holds what was moved |
| `Grep.Run` | user/grep.c:73-82 | true exactly when some substring is in the language of the pattern, at the beginning for ^ and up to the end for $ |
| `Grep.MatchHereIs` | user/grep.c:85-96 | matchhere is true exactly when some beginning of the text is in the declarative language of the pattern |
| `Grep.MatchStarIs` | user/grep.c:99-106 | matchstar is true exactly when some run of the character is followed by a match of the rest |
| `Grep.RunHere` | user/grep.c:85-96 | the recursion terminates and is true exactly when some beginning of the text is in the language of the pattern |
| `Grep.RunStar` | user/grep.c:99-106 | the loop terminates and is true exactly when some run of the character is followed by a match of the rest |
| `Shell.GetToken` | user/sh.c:272-314 | the scanning loops compute the token, and stay within the line |
| `Shell.Token` | user/sh.c:272-314 | a token lies within the line, is empty only at its end, and the scan always moves on |
| `Shell.ParseLine` | user/sh.c:351-365 | the mutually recursive parser terminates on every input and never leaves the line |
| `Shell.ParseExec` | user/sh.c:422-452 | the same for a command with arguments, or a block in parentheses |
| `Shell.ParsePipe` | user/sh.c:368-378 | the same for a pipeline |
| `ShellNul.LineWords` | user/sh.c:351-452 | every word in a parsed tree is a maximal run of word characters |
| `ShellNul.NulTerminate` | user/sh.c:456-499 | the buffer changes by a NUL at the end of every word of the tree and nowhere else |
| `ShellNul.WordsReadBack` | user/sh.c:456-499 | afterwards each argument and file name reads, as a C string, exactly the text of its token |
| `ShellSyntax.LineSound` | user/sh.c:351-365 | whatever parseline accepts is a line of the grammar, and the tree is what the grammar says the line means |
| `ShellSyntax.LineComplete` | user/sh.c:351-365 | every line of the grammar, wherever it stands, is accepted by parseline, which stops behind it, and gives the tree that it means |
| `ShellSyntax.PipeSound` | user/sh.c:368-378 | the same for what parsepipe accepts |
| `ShellSyntax.PipeComplete` | user/sh.c:368-378 | and for every pipeline of the grammar |
| `ShellSyntax.ExecSound` | user/sh.c:406-452 | the same for what parseexec and parseblock accept |
| `ShellSyntax.ExecComplete` | user/sh.c:406-452 | and for every simple command: words and redirections in any order give the EXEC of the words inside the REDIR nodes of the redirections, the first one innermost; or a line in parentheses and then redirections |
| `ShellSyntax.ParsesTo` | user/sh.c:334-348 | whatever line of the grammar has been typed, with any spacing, parsecmd gives the command that it means |
| `ShellSyntax.ParsesExactly` | user/sh.c:334-348 | parsecmd accepts a string exactly if it is a line of the grammar with no more than MAXARGS - 1 arguments to a command |
| `ShellRead.LexesShown` | user/sh.c:272-314 | printed tokens are read back by gettoken |
| `ShellRead.RoundTrip` | user/sh.c:334-348 | print any line of the grammar, parenthesised or not, and parse it: the command is the one that it means |
| `ShellRead.WrittenMeans` | user/sh.c:334-348 | every command of EXEC, REDIR, PIPE, LIST and BACK nodes is what some line means |
| `ShellRead.WordsSurvive` | user/sh.c:334-499 | parse any line of the grammar, cut it up with NULs: every argument and file name of the command that it means is then there as a C string, in its place |

## Left out

- Assembly, trap entry, the trampoline, PLIC, UART and boot code, and virtio_disk_init's register handshake.
- Directories, path names, link counts, the inode cache and its locks, ireclaim; kernel/pipe.c, the console, printf and system calls; kexec; mkfs and the other user programs.
- Weak memory and fences: spin-locks are atomic steps.
- Page tables, files, malloc and the driver's own code are modelled as running one at a time; kmem.lock, inode locks and vdisk_lock are taken to be held. The disk device acts between any two stores of the driver. The buffer cache, the log and the processes are modelled with all their interleavings.
- Processes: kernel/proc.c is a machine of steps between lock operations, not a class with methods, because any other CPU may move in between.
- Kernel page table, uvmclear, copyinstr, and the mappings of the trampoline and trapframe beyond their being no user pages.
- Page-table entries are kept decoded, addresses as page numbers; `Riscv.PteRoundTrip` ties them to the 64-bit words.
- Bio.BufCache.Bget: that a buffer is always found is not claimed, since LOGBLOCKS equals NBUF; it fails exactly when none can be used (`LogCacheFull.FullLogStops` gets there). The class runs one thread at a time, so the sleep-lock must be free; waiting for it, in any interleaving, is in `BioModel`.
- Bio.BufCache.Bread: the block is one of the device, and no thread of this class holds its buffer, as for Bget.
- Bio.BufCache.Brelse: the data must be on disk or pinned, the rule for callers that is stated above.
- LogCacheRuns.StepSound: in the joint machine a critical section of the cache or the log is one step, and a store into a buffer replaces its contents. log_write, with its bpin, is one step. Buffers are for blocks of one device.
- LogCacheLive.CommitCompletes: that other threads release their buffers, and that every thread gets its turns, is not modelled; the commit begins with no buffer held.
- Log.Log.WriteLog: runs inside commit, so no buffer is held and the log machine is in the phase of that commit.
- Log.Log.InstallTrans: the same, or inside recovery.
- Log.Log.Commit: in the class no other thread holds a buffer meanwhile; commits with other threads at work on buffers are in `LogCache`.
- Vm.Kernel.MapPages: takes a permission with at least one of R, W and X, as all callers pass, and a range without mappings, where the code panics otherwise.
- Vm.Kernel.VmFault: the table is that of the current process and `sz` its size.
- Fs.FileSystem.Readi: a copy to the user succeeds or fails a block at a time.
- Fs.FileSystem.Writei: a copy from the user succeeds for a whole block or leaves the buffer as it was; the code may leave part of it in the cache, not logged.
- FsLog.Boot: the layout of the disk is given; reading it off the superblock is left out.
- FsLog.Machine.constructor: takes a log that has just recovered, as FsLog.Boot gives it.
- FsLog.Machine.Trunc: for files that meet the condition, since log_write would panic or the commit stop otherwise.
- FsLog.Machine.Write: one system call at a time runs on top of the log; groups of several are in `LogModel`. The file system's classes keep blocks as bytes, the log's as words.
- Malloc.Heap.MoreCore: its caller malloc has set up the list by then and asks for at least one unit.
- Malloc.Heap.Alloc: requests are those whose size fits sbrk's int argument; base lies below the heap; the 32-bit wrap of the size computation beyond that is not modelled.
- Virtio.VirtioDisk.StartRw: the sector number is not cut to a machine word; the caller's buffer is in no other request, since its sleep-lock is held.
- Virtio.VirtioDisk.DeviceTell: the device reports status 0, once for each request.
- Virtio.VirtioDisk.DeviceCopy: a block moves in one act; a store of the driver is that of one field, of which `len` and `reserved` are left out, and what the handler loads in one turn it loads at once.
- Grep.Run: pattern and text hold no NUL, which ends a C string.
- ShellNul.WordsReadBack: the line holds no NUL, which ends a C string.
- ShellRead.WordsSurvive: the same.
- ShellSyntax.ParsesExactly: a NUL inside the line, which would end the C string, counts as a character of a word.
- ProcCalls.CallsEnd: that a waiting thread gets its lock, that a scheduler runs, and that a sleeper is woken in the end are not claimed.
- Running a parsed command (runcmd), and the memory of its tree.
