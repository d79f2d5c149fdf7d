# Verified models of an xv6 kernel

The repository is a teaching kernel: xv6 with shared memory, semaphores, mutexes, condition
variables, a list library and a user-level pipe. This project models its algorithms in Dafny 4.11 and
proves what they promise. `dafny verify dfyconfig.toml` checks everything; nothing is executed.

| files | what they model |
|---|---|
| Blocks, LogMachine, LogInvariant, LogProof, LogJam, LogTheorems, LogRuns, LogPanic, LogOverflow, LogDevice | the write-ahead log over the buffer cache and the disk: group commit, crashes at every step, recovery |
| BufferRing, BufferCache | the buffer cache: the ring of buffers on the heap, and the store that it presents |
| ListOrder, LinkedList, ListSort | the intrusive list: splice, natural merge sort, reverse, ordered insertion, duplicates |
| Semaphore, SemaphoreProof, SemaphoreCalls | sleep, wakeup, the scheduler and the semaphore calls, one shared access per step |
| ExitWait, ExitWaitProof, ExitWaitTheorems, ExitWaitCounts, ProcTable | fork, exit, wait, kill and the scheduler over the process table |
| Pipe, PipeProof, PipeKill, PipeCalls | the kernel pipe with 32-bit counters |
| Upipe, UpipeProof, UpipeSizes, UpipeCalls | mutex, condition variables and the user-level pipe |
| FreeList, Umalloc | the allocator of section 8.7 of The C Programming Language |
| Bitmap, FileBlocks, FileContent, FileBytes, FileCounts, FileSystem | the free map, block addresses, truncation, byte reads and writes |
| DirEntries, DirTree, DirTreeProof, Paths, DirCalls | directories, path names and link counts |
| PageTable, PageSteps, PageCounts, VirtualMemory, AddressSpaces, KernelMaps, CopySpaces | page tables over the free list of pages, and how many pages each call takes |
| ShellTokens, ShellGrammar, ShellSyntax, ShellPrint, ShellParser, ShellAppend | the shell's parser |
| Grep | the pattern matcher |
| Wrappers, ByteOwners | declarations that several of them share |

Protocols are transition systems: a state, the actions that may interleave, an invariant that every
action keeps, and theorems over all runs. What callers see of them is told by observers, which look at
the states before and after a step and at nothing else. Code that changes things in place is a class, or methods on
heap objects and arrays, proved against functions on values; what the program promises is then proved
of those functions.

What the proofs found in the code:

- log_write tests the length of the list before it takes the lock (project4/log.c:214-219), so that two
  operations can pass the test together and list one block more than the region holds. With a region
  of fewer than NBUF blocks the commit then overwrites the block behind the region before the commit
  point. The 30 blocks that mkfs gives the log (project4/mkfs.c:25) are as many as there are buffers
  (project4/param.h:12): there the race pins every buffer, bget panics before anything is written, and
  crash atomicity holds in every run. `LogOverflow.CrashSafeIff` gives the exact sizes,
  `LogOverflow.CrashUnsafeReachable` the harmful run and `LogOverflow.MkfsLayoutStarves` the shipped layout.
- LOGSIZE equals NBUF, so that a transaction of LOGSIZE blocks leaves commit no buffer for the log
  blocks, on larger logs without any race: `LogOverflow.StarvedReachable`, `LogTheorems.CommitStarvesIff`.
- With its 30 blocks the log has one fewer than log_write asks for: `LogPanic.NeverPanicsIff`,
  `LogPanic.MkfsLayoutPanics`.
- malloc's rounding overflows for the last seven sizes, and from 2^31 bytes on morecore asks sbrk for a
  negative amount, or for nothing: `Umalloc.UnitsSufficeIff`, `Umalloc.SbrkArgumentIff`.
- mkfs rounds the size of the root directory up even from a block border (project4/mkfs.c:158-161), which
  leaves a hole: `FileContent.RoundedSizeHasNoHole`.
- allocuvm ignores the answer of mappages (project4/vm.c:240): if the page table for the last page cannot be
  had, success is reported, the page is not mapped and its memory is lost. copyuvm loses a page in
  the same situation, and setupkvm all pages that were free. `VirtualMemory.Vm.AllocUvm`, `CopySpaces.CopyUvm` and
  `KernelMaps.SetupKvm` give the exact numbers of free pages, and `CopySpaces.AllocUvmLosesPage`,
  `CopySpaces.CopyUvmLosesPage` and `CopySpaces.SetupKvmLosesPages` states in which it happens.
- deallocuvm goes on by a whole page table at a missing one, also from the middle of it
  (project4/vm.c:259-262), and can miss pages: `VirtualMemory.Vm.DeallocUvm` says exactly which,
  `CopySpaces.DeallocUvmMissesPage` shows a state. freevm, which starts at 0, misses none.
- readi of a hole allocates a block (project4/fs.c:452) without iupdate of the inode: `FileSystem.Fs.Readi` tells
  exactly which reads do.
- A writer that is killed leaves a full pipe without waking the readers (project3/pipe.c:85-88):
  `PipeKill.LostByKill`.
- upipe_read takes n bytes once one is there: `UpipeSizes.SafeSizesIff` says exactly for which sizes that
  is safe, and `UpipeSizes.ReadRunsPast` shows a pipe where it is not.
- The shell's `>>` does what `>` does (project4/sh.c:389-394), on every line: `ShellAppend.AppendIsOverwrite`.
- sema_up calls wakeup before it increments value; no wakeup is lost all the same, because both happen
  under the semaphore's lock: `SemaphoreProof.SemaphoreSafety`.

## Model

| member | source | states |
|---|---|---|
| `LogTheorems.CrashAtomicity` | project4/log.c:67-121 | in every state of every run on a log of one block or of at least NBUF blocks, and on every other layout in runs in which no transaction outgrows the region, with a crash after any single step of commit or recovery: what recovery brings back is the first store with a prefix of the updates applied; the prefix holds each operation whole or not at all, and none still active |
| `LogTheorems.RecoveryRestores` | project4/log.c:67-121 | in such runs a crash anywhere, then recovery interrupted by any number of further crashes, ends with every home block at the promised value and an empty log, so recovery is idempotent |
| `LogTheorems.OperationWholeOrAbsent` | project4/log.c:142-171 | in such runs the updates of one operation are all among those that recovery would bring back, or none is, and none while the operation is active |
| `LogTheorems.Durability` | project4/log.c:189-199 | no such run, crashes included, takes back a committed update |
| `LogTheorems.CommitMakesDurable` | project4/log.c:189-199 | when commit returns, everything logged is committed, no operation is active and the home blocks show all updates |
| `LogTheorems.NoPanic` | project4/log.c:210-230 | with LOGSIZE < log.size no operation within MAXOPBLOCKS calls meets a panic in log_write, and end_op never meets committing |
| `LogTheorems.KeepStep` | project4/log.c:124-230 | each of the sixteen actions of operations, buffers, commit, recovery and crash, on any layout, keeps the whole invariant unless it is a log_write that outgrows the region: distinct header blocks, n within LOGSIZE by the credit of the active operations, pinned dirty buffers, the on-disk log phase by phase |
| `LogTheorems.RunInv` | project4/log.c:124-230 | the invariant holds in every state of every run in which the region is not outgrown |
| `LogTheorems.FittingIsWithin` | project4/log.c:210-230 | with LOGSIZE < log.size, or a log of the header alone, no run ever outgrows the region |
| `LogTheorems.RunSafe` | project4/log.c:210-230 | in such runs every state satisfies the invariant, or is one in which the transaction has pinned all NBUF buffers and only a crash leads on |
| `LogTheorems.CommitStarvesIff` | project4/bio.c:82-95 | while nobody else has a buffer, write_log meets the panic of bget that there are none, at any of its rounds, if and only if the transaction lists NBUF blocks |
| `LogJam.JamBegins` | project4/log.c:210-230 | with NBUF blocks of log or more, a log_write that outgrows the region leaves every buffer dirty and listed, and the disk sound |
| `LogJam.JamStep` | project4/bio.c:82-95 | from there operations end and commit starts, but no step writes to the disk |
| `LogOverflow.CrashSafeIff` | project4/log.c:67-121 | for every layout: recovery brings back the committed updates in every state of every run if and only if log.size is 1 or at least NBUF |
| `LogOverflow.CrashUnsafeReachable` | project4/log.c:210-230 | for every log of 2 to NBUF - 1 blocks, a run without a panic, within NBUF buffers, in which two operations pass the unlocked test together; the commit then writes a home block that no operation committed |
| `LogOverflow.MkfsLayoutStarves` | project4/mkfs.c:25 | the layout that mkfs writes is crash safe in every run; a run reaches a commit that has no buffer to read its first log block into |
| `LogOverflow.StarvedReachable` | project4/param.h:10-12 | for every log of NBUF blocks or more, three operations of at most ten log_write calls each reach such a commit, because LOGSIZE equals NBUF |
| `LogTheorems.RecoveredDisk` | project4/log.c:114-121 | two states on either side of a recovery agree on every home block |
| `LogPanic.PanicReachable` | project4/log.c:210-219 | a run of three operations of ten calls each reaches the panic when log.size <= LOGSIZE |
| `LogPanic.NeverPanicsIff` | project4/log.c:210-219 | log_write is free of panics for all runs if and only if LOGSIZE < log.size |
| `LogPanic.MkfsLayoutPanics` | project4/mkfs.c:25 | the layout that mkfs writes, nlog = LOGSIZE, has a run that panics |
| `LogMachine.WithHeader` | project4/log.c:100-112 | the block that write_head writes reads back as exactly the listed blocks |
| `LogDevice.Log.RecoverFromLog` | project4/log.c:114-121 | on any layout, after power-on the home blocks hold what Recovered says of the disk found, and the log is empty; two buffers that can be recycled suffice |
| `LogDevice.Log.Commit` | project4/log.c:189-199 | the loops of write_log and install_trans and the two header writes make all updates durable and installed; it panics for want of a buffer if and only if there is something to write and every buffer is busy or dirty at its start |
| `LogDevice.Log.WriteLogBlocks` | project4/log.c:173-187 | the loop copies every listed block to its log block and leaves the rest of the state alone, if and only if one buffer can be recycled at its start |
| `LogDevice.Log.WriteHead` | project4/log.c:97-112 | one block write commits: the header on disk is the header in memory and everything logged is committed; it needs one buffer |
| `LogDevice.Log.InstallTrans` | project4/log.c:67-81 | the loop installs all listed blocks, at commit with one buffer and at recovery with two |
| `LogDevice.Log.ClearHead` | project4/log.c:195-197 | n = 0 and write_head leave an empty log, with one buffer |
| `LogDevice.Log.BeginOperation` | project4/log.c:124-140 | also during a commit: an operation is admitted exactly when nothing is committing and the reserved space suffices |
| `LogDevice.Log.WriteLogged` | project4/log.c:210-230 | a panic exactly when the list is too long, never with LOGSIZE < log.size; otherwise the search loop absorbs a block already listed or appends it, marking the buffer dirty |
| `LogDevice.Log.EndOperation` | project4/log.c:142-171 | the last operation out commits for all, after which every home block shows all updates, unless no buffer can be recycled |
| `LogDevice.Log.Bread` | project4/bio.c:59-109 | the block's buffer, held, with the cached data or the disk's; only a clean idle buffer is given up for it; the panic exactly when the block is not cached and there is none |
| `LogDevice.Log.Modify` | project4/fs.c:485-486 | a change to a held buffer inside an operation becomes one update of the history |
| `LogDevice.Log.ReadHeader` | project4/log.c:83-95 | the header on disk becomes the list in memory |
| `LogDevice.Log.UpdateBlock` | project4/log.c:124-230 | a whole operation: begin_op, bread, a change, log_write, brelse and end_op record exactly that update, and if the operation was alone the update is durable and in its home block; no panic with LOGSIZE < log.size and two buffers to recycle |
| `BufferCache.Cache.Bget` | project4/bio.c:59-96 | the buffer of the block, or the least recently released buffer that is neither busy nor dirty; what the cache shows of any block is unchanged; otherwise the block is busy, or every buffer is busy or dirty |
| `BufferCache.Cache.Bread` | project4/bio.c:98-109 | a busy valid buffer with what the cache shows of the block, which changes for no block; the buffer is that of the block or the least recently released one; otherwise the block is busy, or every buffer is busy or dirty |
| `BufferCache.Cache.Bwrite` | project4/bio.c:111-119 | the block, and the disk, show the buffer from now on; all other blocks are unchanged |
| `BufferCache.Cache.Brelse` | project4/bio.c:121-142 | the ring is rewired so that the buffer comes first, stays a permutation of all buffers in both directions, and shows the same; the cache stays consistent if and only if a valid buffer is dirty or equal to the disk |
| `BufferCache.Cache.constructor` | project4/bio.c:39-57 | binit's loop builds a ring of all buffers, each without a block |
| `BufferCache.Cache.FindBlock` | project4/bio.c:70-80 | the forward scan finds the buffer of the block if there is one |
| `BufferCache.Cache.FindClean` | project4/bio.c:83-93 | the backward scan finds the last buffer on the ring that is neither busy nor dirty |
| `BufferCache.GetKeeps` | project4/bio.c:83-93 | recycling a clean idle buffer changes nothing that the cache shows, and no block gets cached twice |
| `BufferCache.CachedOnce` | project4/bio.c:59-96 | at most one buffer holds a block |
| `BufferCache.ShowsOne` | project4/bio.c:98-109 | for every block there is exactly one value that the cache shows |
| `BufferCache.WriteKeeps` | project4/memide.c:34-59 | iderw of a dirty buffer makes disk and cache agree on its block and leaves the others |
| `BufferCache.FillKeeps` | project4/memide.c:34-59 | iderw of a buffer that is not valid shows what the disk holds |
| `BufferCache.ReleaseOrders` | project4/bio.c:121-142 | the ring lists the buffers by their last releases, the latest first |
| `BufferRing.Unlink` | project4/bio.c:131-132 | taking a buffer out leaves a ring of the others, in both directions |
| `BufferRing.LinkFirst` | project4/bio.c:133-136 | the buffer stands right behind the head, in both directions |
| `ListSort.List.Sort` | project4/list.c:405-444 | sorted, a stable permutation, doubly linked shape kept, and at most k passes for at most 2^k initial runs, for every strict weak order |
| `ListSort.List.MergePass` | project4/list.c:419-437 | one pass leaves neighbouring runs merged two by two and counts the pairs |
| `ListSort.InplaceMerge` | project4/list.c:378-403 | two adjacent runs are merged in place by splicing single elements |
| `ListSort.FindEndOfRun` | project4/list.c:356-376 | the end of the maximal run |
| `ListSort.IsSorted` | project4/list.c:343-354 | whether no element is below its predecessor |
| `ListSort.List.Reverse` | project4/list.c:328-341 | the exact reversal, with both link directions consistent |
| `ListSort.List.InsertOrdered` | project4/list.c:446-463 | goes after everything not above it, and a sorted list stays sorted |
| `ListSort.List.Unique` | project4/list.c:465-490 | keeps the first of each group of neighbours that compare alike and appends the others in order to duplicates |
| `ListSort.List.PushBack` | project4/list.c:218-224 | appends one element |
| `LinkedList.Splice` | project4/list.c:184-208 | moves exactly the range, within a list or between two, an empty range included |
| `LinkedList.Insert` | project4/list.c:169-182 | inserts one element before another and keeps both link directions |
| `LinkedList.Remove` | project4/list.c:253-259 | removes one element and returns its successor |
| `ListOrder.PassStable` | project4/list.c:405-444 | a pass is a stable rearrangement |
| `ListOrder.PassRuns` | project4/list.c:405-444 | the runs after a pass are at most the number of pairs that it merged |
| `ListOrder.PassCountHalves` | project4/list.c:405-444 | r maximal runs give exactly (r + 1) / 2 output runs in the count |
| `ListOrder.LastPassSorts` | project4/list.c:439-443 | when a pass counts at most one output run, the list is sorted |
| `ListOrder.MergeStable` | project4/list.c:378-403 | merging keeps the order of elements that compare alike, those of the left run first |
| `ListOrder.MergeSorted` | project4/list.c:378-403 | merging two sorted runs gives a sorted one |
| `ListOrder.MergeContents` | project4/list.c:378-403 | merging is a permutation |
| `ListOrder.UniquesConserve` | project4/list.c:465-490 | what is left and what is removed make up the list |
| `ListOrder.UniquesIncrease` | project4/list.c:465-490 | on a sorted list, what is left is strictly increasing |
| `ListOrder.UniquesCover` | project4/list.c:465-490 | the first of every class of alike elements is left |
| `ListOrder.InsertSorted` | project4/list.c:446-463 | inserting after the elements not above keeps a list sorted, and everything behind is above |
| `SemaphoreProof.SemaphoreSafety` | project4/sysfile.c:618-660 | no lost wakeup for any number of processes and CPUs: with a positive value nobody sleeps on the semaphore; value is init + ups - downs and never negative |
| `SemaphoreCalls.CallsCount` | project4/sysfile.c:618-660 | in every state of every run, as an observer of calls and returns counts: each sema_down that has returned has taken one unit and each sema_up one given, so that no more sema_downs have returned than there were units |
| `SemaphoreCalls.KillWakes` | project4/proc.c:425-443 | kill leaves its target awake in its place, and everybody else as they were |
| `SemaphoreProof.LockSafety` | project4/proc.c:312-398 | the panic of acquire is unreachable, and so are those of sched about ptable.lock, ncli and the state; each lock has one owner |
| `SemaphoreProof.KeepStep` | project4/proc.c:280-443 | every step of sema_down, sema_up, sleep, each iteration of wakeup1, yield, kill of any pid and the scheduler keeps the invariant |
| `SemaphoreProof.RunInv` | project4/sleep1.p:54-134 | the invariant holds over every run, without the bounds of the Promela model |
| `ExitWaitTheorems.FamilySafety` | project4/proc.c:176-269 | nobody sleeps in wait without a child or over a zombie child; past EMBRYO every process but init has a live parent; pids are unique |
| `ExitWaitCounts.ExitsCollected` | project4/proc.c:176-269 | in every state of every run, the exits are as many as the waits that returned a pid, plus the zombies: no exit is collected twice, and none is lost |
| `ExitWaitCounts.WaitOutcome` | project4/proc.c:222-269 | wait frees exactly one zombie child if there is one; otherwise it returns only without children or when killed, and sleeps only over living children |
| `ExitWaitCounts.CallsWake` | project4/proc.c:403-443 | wakeup leaves nobody asleep on its channel and touches nobody else; kill leaves its target marked and awake |
| `ExitWaitTheorems.RunningMatchesCpus` | project4/proc.c:280-340 | with ptable.lock free, RUNNING processes and busy CPUs match one to one |
| `ExitWaitTheorems.FreedStackIsIdle` | project4/proc.c:235-252 | no step frees a kernel stack on which a CPU executes |
| `ExitWaitTheorems.KeepStep` | project4/proc.c:35-443 | every step of fork, exit, wait, sleep, yield, wakeup, kill and the scheduler keeps the invariant |
| `ExitWaitTheorems.RunInv` | project4/proc.c:35-443 | the invariant holds in every reachable state |
| `ProcTable.Wakeup1` | project4/proc.c:403-411 | the table scan wakes exactly the sleepers on the channel |
| `ProcTable.PassChildren` | project4/proc.c:202-211 | the table scan of exit passes all children to init and wakes init if one is a zombie |
| `ProcTable.ScanChildren` | project4/proc.c:233-256 | the table scan of wait finds the first zombie child, and whether there is any child |
| `Umalloc.Allocator.Malloc` | project4/umalloc.c:63-90 | 0 if and only if no free block fits, or there is no list yet, and sbrk refuses the larger of 4096 and the units asked for; otherwise a fresh block of the right size, the tail of the first free block that fits; free and allocated blocks still partition exactly what sbrk gave; memory is asked for exactly when nothing fits; the block holds nbytes if and only if the rounding does not overflow |
| `Umalloc.Allocator.FirstFit` | project4/umalloc.c:73-89 | the circular search terminates, takes the first block behind freep that is large enough, and asks for memory exactly when there is none |
| `Umalloc.Allocator.Free` | project4/umalloc.c:24-44 | exactly the block goes from allocated to free; the list stays circular by address with one wrap, and no two free blocks touch |
| `Umalloc.Allocator.FindPlace` | project4/umalloc.c:29-32 | the search terminates at the block's place in address order, from any starting point |
| `Umalloc.Allocator.Morecore` | project4/umalloc.c:46-61 | 0 if and only if sbrk refuses; otherwise exactly the larger of 4096 and the units asked for, at the old break, join the heap, free and in one block that is large enough |
| `Umalloc.Allocator.Carve` | project4/umalloc.c:77-86 | the whole block, or its tail, becomes allocated and the rest stays free; the search goes on from its predecessor next time |
| `Umalloc.UnitsSufficeIff` | project4/umalloc.c:69-69 | the units reserved hold nbytes if and only if nbytes + 7 does not overflow |
| `Umalloc.SbrkArgumentIff` | project4/umalloc.c:54-54 | sbrk receives the number of bytes that morecore goes on to use if and only if that is below 2^31 |
| `FreeList.FreeTiles` | project4/umalloc.c:24-44 | after free, the free and the allocated blocks still partition the heap |
| `FreeList.TakeTiles` | project4/umalloc.c:77-86 | after malloc, they do too |
| `Grep.MatchesIff` | project4/grep.c:72-106 | match is 1 if and only if some suffix of the text, the whole text after ^, has a prefix in the language of the pattern |
| `Grep.PrefixIffPiece` | project4/grep.c:84-106 | matchhere is 1 if and only if a prefix of the text is in the language, all of it for a final $ |
| `Grep.Match` | project4/grep.c:72-82 | the loop over suffixes computes Matches |
| `Grep.MatchHere` | project4/grep.c:84-96 | the recursion decides HasPrefix and terminates |
| `Grep.MatchStar` | project4/grep.c:98-106 | the loop tries all repetitions, the empty one first |
| `PipeProof.PipeFifo` | project3/pipe.c:77-126 | for all interleavings, kill included, the bytes read are a prefix of the bytes written, at most 512 apart, and pipecount is the difference, also across counter overflow |
| `PipeCalls.WriteProgress` | project3/pipe.c:77-96 | in every state of every run, kill included, the bytes that a pipewrite under way has put into the pipe are the first i of its buffer in order |
| `PipeCalls.WriteReturns` | project3/pipe.c:77-96 | a pipewrite that returns has written its whole buffer, or a first part of it while the pipe is full and the readers are gone or the process was killed |
| `PipeCalls.ReadReturns` | project3/pipe.c:98-120 | a piperead that returns has got the last bytes taken from the pipe, in order, no more than it asked for, and fewer only if the pipe is empty |
| `PipeCalls.KilledLeaves` | project3/pipe.c:85-108 | a killed process does not go to sleep in the pipe |
| `PipeProof.NoLostWakeup` | project3/pipe.c:58-120 | with the pipe's lock free, a sleeping writer means full and readers open; a sleeping reader means empty and writers open, unless a killed writer has left a full pipe |
| `PipeProof.FreedPipeIsUnused` | project3/pipe.c:58-74 | when both ends are closed nobody else is inside the pipe |
| `PipeProof.RingTests` | project3/pipe.c:77-126 | the 32-bit tests for full and empty, and pipecount, tell the true totals |
| `PipeProof.KeepStep` | project3/pipe.c:58-120 | every step of pipewrite, piperead and pipeclose, with the early returns of killed processes, and kill itself keep the ring and the sleeping invariant |
| `PipeKill.LostByKill` | project3/pipe.c:85-88 | a run in which a writer is killed ends with a full pipe, its lock free, and a reader asleep |
| `UpipeProof.MutexExclusion` | project4/sysfile.c:696-730 | in every run at most one process is between lock_acquire and lock_release, also across cond_wait; nobody sleeps on a free mutex |
| `UpipeProof.UpipeFifo` | project4/upipe.c:54-110 | if every read asks for r bytes and r divides the pipe's size and every write, reads never underflow, bytes are first in, first out, and with the mutex free count is a multiple of r between 0 and size |
| `UpipeCalls.CallReturns` | project4/upipe.c:54-110 | for all sizes: a upipe_write that returns has written its whole buffer in order, a upipe_read has got the last n bytes that were read |
| `UpipeCalls.SignalOldest` | project4/sysfile.c:781-832 | cond_signal takes from the list the process whose cond_wait is the oldest |
| `UpipeCalls.SignalWakes` | project4/sysfile.c:781-832 | and wakes it, if it is asleep already |
| `UpipeSizes.SafeSizesIff` | project4/upipe.c:54-110 | with writes of w bytes and reads of r, no run reads past what was written if and only if r divides both w and the size of the pipe |
| `UpipeSizes.ReadRunsPast` | project4/upipe.c:83-110 | in a pipe of one byte, with one byte per write and two per read, a run takes a byte that nobody wrote |
| `UpipeSizes.RunsDry` | project4/upipe.c:83-110 | from a count that r does not divide, reads of r bytes reach a negative count |
| `UpipeProof.KeepSizes` | project4/upipe.c:54-110 | every step keeps the divisibility of count and of the progress of each call |
| `UpipeProof.KeepRing` | project4/upipe.c:54-110 | every step keeps the ring equal to what is written and not yet read |
| `UpipeProof.KeepMutex` | project4/sysfile.c:781-832 | every step of lock_acquire, lock_release, cond_wait and cond_signal keeps the mutex invariant |
| `FileSystem.Fs.constructor` | project4/mkfs.c:94-112 | a disk on which only the metadata blocks are in use and no inode has blocks starts out consistent |
| `FileSystem.Fs.Balloc` | project4/fs.c:53-75 | the loops find the first block whose bit is clear, never a metadata or owned one, mark it and zero it; they fail only when every bit is set |
| `FileSystem.Fs.Bfree` | project4/fs.c:77-93 | clears the bit; the panic is unreachable for a block in use |
| `FileSystem.Fs.Bmap` | project4/fs.c:356-384 | the address of block bn, allocated with the indirect block if missing; it fails if and only if fewer blocks are free than that takes; no file reads differently, no other slot changes, and ownership stays exact |
| `FileSystem.Fs.Itrunc` | project4/fs.c:391-419 | frees each block of the file exactly once and nothing else; other files are untouched and the inode reaches the disk |
| `FileSystem.Fs.Readi` | project4/fs.c:434-458 | the slice of the contents, with the same error cases, holes read as zeroes; blocks are allocated if and only if a block of the range read is a hole, exactly for those, and no file reads differently; the panic for want of blocks if and only if fewer are free than that takes; a device inode answers what its driver does |
| `FileSystem.Fs.Writei` | project4/fs.c:462-492 | the contents are overwritten from off on, across block borders, holes and the direct-indirect switch, size becomes the maximum; other files keep every block; the panic for want of blocks if and only if fewer are free than the unmapped blocks of the range and a missing indirect block; the inode reaches the disk exactly when the file grows, which covers every new address of a file without holes |
| `FileSystem.Fs.Ialloc` | project4/fs.c:176-196 | on any disk that knows which inodes are free: the first free inode, cleared, on disk too, all before it being in use; none exactly when all are in use |
| `FileSystem.Fs.FreeInode` | project4/fs.c:317-331 | the blocks and the inode are freed, on disk too, whatever the other files look like |
| `FileCounts.ClearCount` | project4/fs.c:53-93 | a data block is free by the free map or named by an inode: the two numbers add up to all data blocks |
| `FileCounts.WantedNext` | project4/fs.c:356-384 | the next chunk of a read or write takes what bmap takes for its block, the indirect block counted once |
| `FileCounts.WantedNothing` | project4/fs.c:450-456 | a range takes no block if and only if it has no hole |
| `FileBlocks.BitIffNamed` | project4/fs.c:53-93 | a data bit is set if and only if some inode names the block |
| `FileBlocks.OwnersDistinct` | project4/fs.c:356-419 | no block is named twice, by one inode or two |
| `FileBlocks.AttachKeeps` | project4/fs.c:356-384 | giving a free block to a slot keeps free map and addresses one partition |
| `FileBlocks.EntryFreedKeeps` | project4/fs.c:404-412 | each bfree of a listed block hits a set bit, and keeps the partition of what is left |
| `FileContent.TruncatedBits` | project4/fs.c:391-419 | after itrunc the free map has lost exactly the blocks of that inode |
| `FileContent.RoundedSizeHasNoHole` | project4/mkfs.c:158-161 | mkfs's rounding of the root directory leaves it without holes if and only if its size was not a multiple of the block size |
| `FileBytes.WriteDone` | project4/fs.c:476-492 | after the rounds of writei the file reads as if overwritten in one piece |
| `FileBytes.WriteRound` | project4/fs.c:481-487 | one round keeps the account of bytes written, blocks mapped and other files, and in a file without holes an allocation always passes the old size |
| `FileBytes.ReadRound` | project4/fs.c:450-456 | one round of readi fills a hole or changes nothing, and the block reads as it did before the call |
| `FileBytes.WriteKeepsFiles` | project4/fs.c:462-492 | a write keeps all files free of holes and all other contents |
| `FileBytes.TruncKeepsFiles` | project4/fs.c:391-419 | so does a truncation |
| `Bitmap.SetBit` | project4/fs.c:64-68 | or-assignment on the byte sets exactly one bit of the block |
| `Bitmap.ClearBit` | project4/fs.c:87-92 | and-not on the byte clears exactly one bit of the block |
| `DirEntries.SameName` | project4/fs.c:497-501 | strncmp's loop: equal if and only if the first 14 bytes up to a NUL are |
| `DirEntries.KeyOfPadded` | project4/string.c:68-79 | a name stored by strncpy counts as the name that it was |
| `DirEntries.DirLookup` | project4/fs.c:505-529 | the first live entry with that name |
| `DirEntries.DirLink` | project4/fs.c:532-559 | refuses a name that is there, and otherwise fills the first free slot or appends |
| `DirEntries.LinkedBinds` | project4/fs.c:532-559 | as a finite map, a directory gains exactly one binding and still has no name twice |
| `DirEntries.ClearedBinds` | project4/sysfile.c:213-216 | unlink takes exactly one binding away |
| `Paths.SkipElem` | project4/fs.c:576-599 | the next maximal run without slashes, cut to 14 bytes, and the rest of the path |
| `Paths.ElementsOfSpelled` | project4/fs.c:562-575 | any number of slashes before, between and after elements reads back as those elements |
| `Paths.Namex` | project4/fs.c:605-638 | from the root for an absolute path and from the current directory otherwise, the walk is lookup of one element after the other, and with nameiparent it stops one level early |
| `Paths.WalkJoined` | project4/fs.c:605-638 | a relative path means, from the directory that another path leads to, what the two mean with a slash in between |
| `Paths.WalkAbsolute` | project4/fs.c:610-613 | an absolute path means the same from every directory, and the slash alone means the root |
| `Paths.ResolveByParent` | project4/fs.c:640-651 | namei is nameiparent followed by one lookup |
| `DirCalls.LinkCounts` | project4/sysfile.c:117-284 | after any create, link, unlink and free calls through linked parents, nlink is the number of entries that name the inode in linked directories, dot left out, and no directory has a name twice |
| `DirCalls.Tree.Link` | project4/sysfile.c:117-165 | adds one entry and one link, or fails and puts the count back |
| `DirCalls.Tree.Unlink` | project4/sysfile.c:184-239 | succeeds exactly for a name that is there, is not a dot name and does not name a directory with entries; the panic on nlink is unreachable |
| `DirCalls.Tree.Create` | project4/sysfile.c:241-284 | a new inode of the kind asked for, with one link and bound to the name, exactly when the name is free; the existing file exactly when a file is asked for and the name stands for one; otherwise nothing |
| `DirCalls.Tree.IsDirEmpty` | project4/sysfile.c:167-181 | whether all entries from the third on are free |
| `DirTreeProof.LinkMadeKeeps` | project4/sysfile.c:117-165 | link keeps every count and the shape of the tree |
| `DirTreeProof.DirMadeKeeps` | project4/sysfile.c:241-284 | creating a directory keeps them |
| `DirTreeProof.FileMadeKeeps` | project4/sysfile.c:241-284 | creating a file keeps them |
| `DirTreeProof.UnlinkKeeps` | project4/sysfile.c:184-239 | unlink keeps them, for files and for empty directories |
| `DirTreeProof.OnlyRef` | project4/sysfile.c:207-210 | an empty directory is named by its one entry and by nothing else, so that its count drops to 0 |
| `VirtualMemory.Vm.MapPages` | project4/vm.c:67-90 | exactly the pages that cover va to va + size get translations, no other translation and no user page changes; on an unmapped range it succeeds if and only if there are as many free pages as missing page tables; after a failure only a first part is mapped |
| `VirtualMemory.Vm.Walk` | project4/vm.c:42-65 | the page table, made on demand; no translation changes; it fails only without memory |
| `VirtualMemory.Vm.AllocUvm` | project4/vm.c:218-243 | told by the pages that were free: success without loss if and only if there is one for every new page and every missing table; success with the last page lost if and only if one is missing and the last page is the first to need its table; every other new page is mapped to a zeroed page that had no role; failure restores all translations and gives back everything but page tables and at most one page, lost exactly when memory ended between a page and its table |
| `VirtualMemory.Vm.DeallocUvm` | project4/vm.c:245-273 | exactly the mapped pages between the sizes are freed, and on the free list, but for those missed; all are freed if and only if none is missed, that is unless the range starts inside a table that is not there and the first table there is has mapped entries below that place |
| `VirtualMemory.Vm.constructor` | project4/kalloc.c:30-52 | freerange's loop puts every page of the range on the free list, once, and none has a role |
| `VirtualMemory.Vm.Kalloc` | project4/kalloc.c:79-95 | the first page of the free list, or none exactly when it is empty |
| `VirtualMemory.Vm.Kfree` | project4/kalloc.c:54-77 | the page goes to the front of the free list, filled with junk |
| `AddressSpaces.FreeVm` | project4/vm.c:275-292 | for every space: user pages, page tables and directory lose their roles and are on the free list, each once; no page disappears, and no other space is touched |
| `KernelMaps.SetupKvm` | project4/vm.c:127-144 | success if and only if the lines of kmap are apart and there are pages for the directory and their tables; then every line is mapped, nothing else is, and existing spaces are untouched; when memory ends all pages that were free are lost |
| `CopySpaces.CopyUvm` | project4/vm.c:321-351 | success if and only if kmap is sound, the parent has all pages below sz, and the free pages suffice for directory, tables and pages; then equal contents and permissions on fresh pages under the kernel's lines; a failed copy gives back everything, or everything but one page, exactly when memory ended between a page and its table, and all free pages if setupkvm failed; the parent is untouched |
| `CopySpaces.CopyUvmLosesPage` | project4/vm.c:340-344 | under any kernel map, a state in which copying one page fails and leaves one free page fewer |
| `CopySpaces.AllocUvmLosesPage` | project4/vm.c:232-240 | under any kernel map, a state in which allocuvm reports one page of memory that is not mapped |
| `CopySpaces.SetupKvmLosesPages` | project4/vm.c:134-142 | under any kernel map, with any number of pages that is too small, setupkvm fails and keeps them all for a directory that nobody knows |
| `CopySpaces.DeallocUvmMissesPage` | project4/vm.c:259-262 | under any kernel map, a state in which deallocuvm down to one page leaves page 1024 mapped |
| `CopySpaces.CopyAccount` | project4/vm.c:331-350 | how far the copy came tells how many pages were free, whether the copy can succeed and whether a page is lost |
| `VirtualMemory.FreeCount` | project4/kalloc.c:54-95 | conservation: the pages that are free and those with a role always make up all pages |
| `VirtualMemory.CountStops` | project4/vm.c:232-238 | when memory ends in allocuvm there were too few pages, and a page is lost exactly if the page table it needed was the missing one |
| `VirtualMemory.ComingNext` | project4/vm.c:259-262 | the 1024 pages that deallocuvm skips at a missing page table have no table either, or are missed |
| `KernelMaps.KernelNext` | project4/vm.c:139-142 | mapping one more line of kmap keeps the account of lines mapped, tables present and pages used |
| `KernelMaps.KernelStops` | project4/vm.c:139-142 | a line that fails for memory shows that the pages never sufficed; a remap shows two lines that meet |
| `PageCounts.MissingNext` | project4/vm.c:54-58 | the number of missing page tables grows by one exactly at the first page of a missing table |
| `PageTable.UserPagesDistinct` | project4/vm.c:321-351 | no physical page is a user page twice, in one space or two |
| `PageTable.DirectoryAllows` | project4/vm.c:60-63 | directory entries allow everything, so that the rights of a page are those of its own entry |
| `PageTable.PageMappedLookup` | project4/vm.c:79-83 | a page-table entry adds exactly one translation |
| `PageTable.TableAddedLookup` | project4/vm.c:54-63 | an empty page table adds none |
| `PageTable.PageFreedKeeps` | project4/vm.c:262-270 | freeing a user page keeps the roles of all pages exact |
| `ShellGrammar.RoundTrip` | project4/sh.c:326-447 | a line that spells a command in full parentheses, with any blanks, is parsed back to it if and only if no part has ten arguments or more |
| `ShellGrammar.Reparsed` | project4/sh.c:326-447 | any accepted line means a command that printing and parsing keep |
| `ShellGrammar.Spelled` | project4/sh.c:266-309 | every command of valid words has such a line |
| `ShellGrammar.PrintParse` | project4/sh.c:345-447 | the parser inverts printing, whatever closes the line |
| `ShellGrammar.SequenceGood` | project4/sh.c:345-447 | whatever is accepted has valid words, the two kinds of redirection, and few enough arguments |
| `ShellParser.ParseCmd` | project4/sh.c:328-343 | the command that the grammar assigns to the line, or a panic exactly when there is none; every word then reads as its token and nothing else in the buffer has changed |
| `ShellSyntax.ParsedIff` | project4/sh.c:326-447 | the parser takes tokens for a command if and only if a syntax tree of words, redirections, pipelines, ampersands, semicolons and parentheses spells the tokens and means the command |
| `ShellSyntax.TreeParses` | project4/sh.c:326-447 | every tree is parsed to its meaning, or refused if and only if a simple command in it has ten words or more |
| `ShellSyntax.SimpleLine` | project4/sh.c:416-447 | words and redirections in any order: the words in order, with the redirections around them in order, the first innermost |
| `ShellPrint.BriefRoundTrip` | project4/sh.c:326-447 | a command written with parentheses only where precedence asks for them is read back if and only if no part has ten arguments or more, and refused otherwise |
| `ShellAppend.AppendIsOverwrite` | project4/sh.c:389-394 | for all token sequences: with every append sign replaced by an overwrite sign the line is accepted just the same and means the same command |
| `ShellParser.ParseLine` | project4/sh.c:345-360 | follows the grammar of sequences and background commands |
| `ShellParser.ParsePipe` | project4/sh.c:362-373 | follows the grammar of pipelines |
| `ShellParser.ParseRedirs` | project4/sh.c:375-398 | the loop collects all redirections in order |
| `ShellParser.ParseBlock` | project4/sh.c:400-414 | follows the grammar of parentheses; its first panic is unreachable |
| `ShellParser.ParseExec` | project4/sh.c:416-447 | follows the grammar of simple commands |
| `ShellParser.ParseArgs` | project4/sh.c:430-443 | the loop fills argv, with redirections in between, and panics at the tenth argument |
| `ShellParser.NulTerminate` | project4/sh.c:449-494 | writes NULs exactly at the ends of the words |
| `ShellParser.WordsRead` | project4/sh.c:449-494 | no NUL falls inside another word |
| `ShellTokens.GetToken` | project4/sh.c:266-309 | takes exactly the next token and tells its place |
| `ShellTokens.Peek` | project4/sh.c:311-321 | tells whether the next token starts with one of the symbols, and moves over blanks only |
| `ShellTokens.RenderedToks` | project4/sh.c:266-309 | tokens written with blanks between them are read back |

## Left out

- Umalloc.Allocator.Malloc: asks that the request stay below 2^31 bytes; `Umalloc.SbrkArgumentIff` says exactly what happens above, but the heap is not followed there. How far the kernel lets the process grow is a field that may change between calls.
- FileSystem.Fs.Readi: the answer of a device driver is a parameter; what a driver does elsewhere is not part of the model.
- FileSystem.Fs.Writei: the same holds for it, and running out of blocks is reported as such rather than as a stopped machine.
- VirtualMemory.Vm.AllocUvm: for ranges in which nothing is mapped yet, where mappages would panic.
- KernelMaps.SetupKvm: which of memory and the remap panic comes first is not told for lines that overlap; the check of PHYSTOP is one of constants.
- BufferCache.Cache.Bget: the wait for a busy buffer is an answer, not a sleeping process.
- UpipeProof.UpipeFifo: read_index and write_index are unbounded, which agrees with the int fields below 2^31 bytes.
- UpipeProof.MutexExclusion: for runs without kill; a killed process exits on its way back from the system call, and leaves its node on the list of a condition variable.
- PipeProof.NoLostWakeup: a killed process goes on in the kernel and starts no new call; that it exits and closes its ends is up to the run.
- SemaphoreProof.SemaphoreSafety: value is unbounded, which agrees with the int below 2^31 ups.
- SemaphoreProof.LockSafety: the interrupt flag, which stays clear while ncli is positive, is not part of the state.
- DirCalls.LinkCounts: each call is one step, through parents that are still linked, with counts below 32768 and inode numbers below 65536.
- LogDevice.Log.Commit: asks that the buffers of the log region and of the listed blocks be idle, where the source waits until they are; so do WriteLogBlocks, WriteHead, InstallTrans, ClearHead, EndOperation, ReadHeader, RecoverFromLog and UpdateBlock. The transition system has all interleavings.
- LogDevice.Log.WriteLogged: nobody comes between its test and its lock; the transition system has that race.
- Which clean buffer bget recycles is left open in the log's model; `BufferCache.Cache.Bget` says which.
- No lost wakeup is not claimed for condition variables: a signal between lock_release and sleep in cond_wait finds nobody asleep.
- ExitWait treats what runs under ptable.lock without switching as one step; open files, memory and the current directory of a process are not followed.
- Inode blocks are records rather than bytes; directories are sequences of entries rather than bytes of files.
- The inode cache with its reference counts and locks, and sys_open, are not modelled; ialloc's choice is a parameter of create.
- Fitting one chunk of filewrite into MAXOPBLOCKS is not claimed: the chunk is computed from LOGSIZE.
- Sharing of pages between processes, its reference counts and detaching are not modelled; the primitives work on fixed shared pages.
- Running commands, the list's maximum and minimum, and copyout are not modelled: each is one scan or copy without state of its own.
- Hardware, boot code, trap frames, segment setup, exec and the user programs other than the shell, grep, malloc and upipe are not modelled; swtch is a control transfer that keeps ptable.lock held.
