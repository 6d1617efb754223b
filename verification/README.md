# xv6, modelled and proved in Dafny

This project models the parts of the xv6 teaching kernel (RISC-V, with per-process
kernel page tables that shadow user memory) whose correctness is hard to see from
the code, together with three user programs of the same repository, and proves
what each of them is for. `dafny verify dfyconfig.toml` checks everything.

Code that updates state in place is a class whose methods have the source's loops
and branches; each such class carries the abstract value it stands for, methods
tie the new value to the old one, and the theorems are lemmas over those values.
Protocols with several processes are step machines, and their theorems range over
every run.

| files | what they are about |
|---|---|
| WriteAheadLog, Log, CommitRun | the redo log: a transaction is on disk entirely or not at all, through any number of crashes, also inside recovery, and with readers using the cache during a commit |
| BufferCache, CacheUsage, Bio | the buffer cache: an LRU list in place that reads and writes like a plain disk |
| FsImage, Files | the bitmap allocator, direct and indirect blocks, reads and writes as operations on byte sequences, the size of a transaction |
| LinkCount, Directories | directories as name maps, and link counts through create, link, unlink and all their error exits |
| PageTable, Vm, AddressSpace, ProcMemory, Shadow | three-level page tables as flat maps, conservation and exact counts of physical pages from boot on, the kernel table as a shadow of user memory |
| Monitor, SleepLock, LogAdmission, PipeWaiting, DiskWaiting, ExitWait | sleep and wakeup: no wakeup is lost; sleep locks, admission to the log, pipes, the disk driver, exit and wait as clients of that one theorem |
| Pipe | the pipe's ring buffer with 32-bit counters |
| VirtioQueue, Virtio | the disk driver against any conforming device |
| HeapArena, Malloc | the user-level allocator |
| ShellGrammar, ShellRoundTrip, ShellTokens, Shell | the shell's parser: termination, round trip, blanks that do not matter, NUL termination |
| Regex | the pattern matcher of grep against the language of the pattern |
| Prelude | definitions that several of these share |

Some properties one might expect are false of the code, and the project says
exactly when they hold:

- log_write() can panic in calls that keep to MAXOPBLOCKS. No run panics if and only
  if two calls that have taken all they may, on top of as much as lets a second one
  in, stay below the limit it checks (`LogAdmission.NoPanicIff`). With the shipped
  constants that is so exactly if no call logs all of its 10 blocks
  (`LogAdmission.ShippedLog`).
- exec() rewrites the process's shadow table before it can still fail. After a failure
  the shadow agrees with the process's memory if and only if the new image was too
  large for the early check to pass or the process had no memory (`Shadow.System.Exec`,
  `Shadow.LateFailure`); `Shadow.LateFailureReached` is a run from boot to a failure.
- kvmdealloc() removes nothing. growproc() and exec() keep it so that the kernel table
  maps no page of the allocator above the process's size if and only if the number of
  pages does not go down (`Shadow.System.Growproc`, `Shadow.System.Exec`); each page
  given up leaves an entry that leads to a free page (`Shadow.TightShrunk`;
  `Shadow.StaleReached` is a run from boot).
- allocproc() does not always undo what it did when memory runs out. It takes 79 pages
  and succeeds if and only if there are as many. With fewer, in a slot that was in use
  before, it undoes everything if and only if there are at most 5 or exactly 78; from 6
  to 77 kvmmap() panics over the kernel table. In a fresh slot it always panics, at the
  latest when kfree() gets the address that procinit() left in kstack
  (`ProcMemory.Allocproc`, `ProcMemory.Freeproc`; `Shadow.UsedSlotPanics` is a run from
  boot to the panic in a used slot).
- A failing allocproc() returns with p->lock released if and only if it was not the page
  for the kernel stack that was missing, that is, unless exactly 78 pages are free
  (`ProcMemory.Allocproc`).
- A changed block survives brelse() and bunpin() if and only if a reference to its
  buffer remains (`BufferCache.ReleaseKeeps`, `BufferCache.DropKeeps`,
  `BufferCache.UnpinKeeps`); otherwise the next bget() that recycles the buffer loses
  the change (`BufferCache.ForgottenChange`). If blocks are logged or written before
  they are unlocked and written before they are unpinned, that never happens
  (`BufferCache.TidyIsSafe`, `BufferCache.CacheRefinesDisk`).
- A reader of a pipe can sleep beside unread bytes, but only if a writer is killed
  between putting bytes in and announcing them (`PipeWaiting.SleepersHaveReason`
  without, `PipeWaiting.ReaderNotTold` with such a writer).
- An entry written into a directory that has been removed meanwhile is not counted:
  the link counts survive link, create and mkdir if and only if the directory is still
  linked (`LinkCount.EnterIff`, `LinkCount.NewDirIff`; `LinkCount.EnterMiscounts` and
  `LinkCount.MkdirMiscounts` are inputs).
- malloc's request reaches sbrk() unchanged if and only if it is below 2^27 units
  (`Malloc.SbrkArgument`).

## Model

| member | source | states |
|---|---|---|
| WriteAheadLog.InstallAt | kernel/log.c:67-83 | after the first k copies of install_trans, a block holds the log block of the last entry that names it, and blocks no entry names are as before |
| WriteAheadLog.Reinstall | kernel/log.c:67-83 | installing again from a disk on which any number of blocks are already installed gives the same disk |
| WriteAheadLog.RecoveryIsIdempotent | kernel/log.c:116-123 | a recovery cut short after any number of block writes can be recovered again, to the same home blocks, and a finished one leaves an empty log |
| WriteAheadLog.CommitTailIsRecovery | kernel/log.c:193-203 | from the header write on, commit() makes the same disks as a recovery from the committed log |
| WriteAheadLog.CommitIsAtomic | kernel/log.c:178-203 | recovery from the disk after any prefix of commit()'s block writes gives the old home blocks up to the header write and the transaction's from it on; a finished commit leaves the log empty |
| WriteAheadLog.StepRefines | kernel/log.c:67-203 | commits, crashed commits, recoveries and crashed recoveries all step the recovered home blocks as an atomic disk would |
| WriteAheadLog.CrashAtomicity | kernel/log.c:67-203 | over every history of commits, crashes at any write and crashes during recovery, the recoverable home blocks are those of a disk on which each transaction happens at once or not at all |
| BufferCache.FindIs | kernel/bio.c:65-73 | with at most one buffer per block, the forward scan finds the buffer of the block |
| BufferCache.GetKeeps | kernel/bio.c:58-89 | bget keeps at most one buffer per block and changes what no block reads as; buffers in use stay where they are |
| BufferCache.GetFinds | kernel/bio.c:58-89 | afterwards the block is cached, in the buffer found or recycled |
| BufferCache.LockAndFillKeeps | kernel/bio.c:92-103 | filling the buffer from disk changes what no block reads as |
| BufferCache.ModifyKeeps | kernel/bio.c:92-112 | changing a locked buffer changes the contents of its block only |
| BufferCache.WriteKeeps | kernel/bio.c:106-112 | bwrite changes what no block reads as and leaves its buffer clean |
| BufferCache.ReleaseKeeps | kernel/bio.c:116-137 | brelse, with its move to the front of the list, changes what no block reads as and keeps one buffer per block; every changed block keeps a reference if and only if this was not the last one to a changed block |
| BufferCache.UnlockKeeps | kernel/bio.c:120-121 | releasing the sleep lock alone keeps the invariant and all contents |
| BufferCache.DropKeeps | kernel/bio.c:123-136 | the same for giving up the reference later, when others may have locked the buffer in between |
| BufferCache.ReleaseSplits | kernel/bio.c:116-137 | without interference the two are brelse |
| BufferCache.PinKeeps | kernel/bio.c:139-144 | bpin keeps the invariant and all contents |
| BufferCache.UnpinKeeps | kernel/bio.c:146-151 | the same for bunpin |
| BufferCache.ForgottenChange | kernel/bio.c:75-85 | when the buffer bget recycles holds a change, the block reads as on disk again: the change is lost |
| BufferCache.TidyIsSafe | kernel/log.c:228-233 | while every changed block is pinned or locked, giving up any reference, or a pin after writing, leaves no changed block without a reference |
| BufferCache.NextTidy | kernel/bio.c:58-151 | every step keeps it so, if a changed block is pinned before it is unlocked and locked when it is unpinned |
| BufferCache.FreshShows | kernel/bio.c:36-53 | so it is in a cache just set up, which reads as the disk |
| BufferCache.NextRefines | kernel/bio.c:58-151 | each step of any process, brelse being two and dropping a reference being without condition, is a step of a plain disk |
| BufferCache.CacheRefinesDisk | kernel/bio.c:58-151 | over every interleaving of such steps, each block reads as on a plain disk with the same writes, and no change is lost to recycling |
| CacheUsage.UnusedIsClean | kernel/bio.c:75-85 | a block that is neither held nor pinned reads as on disk, so its buffer may be recycled |
| CacheUsage.FreshUsage | kernel/bio.c:36-53 | a cache that was just set up has nothing held and nothing pinned |
| CacheUsage.TakeUsage | kernel/bio.c:58-103 | taking a block keeps every reference count equal to its holders plus one for a pin |
| CacheUsage.PinUsage | kernel/log.c:228-233 | pinning keeps the counts and adds one pinned block |
| CacheUsage.UnpinUsage | kernel/log.c:69-83 | unpinning keeps the counts and removes one pinned block |
| CacheUsage.ReleaseUsage | kernel/bio.c:116-137 | releasing keeps the counts and removes one holder |
| CacheUsage.EnoughBuffers | kernel/bio.c:75-88 | with fewer held and pinned blocks than buffers, bget finds a buffer and does not panic |
| Bio.Unlink | kernel/bio.c:123-126 | removes exactly one buffer from the circular list |
| Bio.PushFront | kernel/bio.c:127-131 | inserts a buffer right behind the list head |
| Bio.Bcache.constructor | kernel/bio.c:36-53 | a circular list of n unused buffers |
| Bio.Bcache.FindCached | kernel/bio.c:65-73 | the scan over next finds the buffer of the block if there is one |
| Bio.Bcache.FindVictim | kernel/bio.c:75-78 | the scan over prev finds the least recently used buffer without references |
| Bio.Bcache.Get | kernel/bio.c:58-89 | bget on the list is BufferCache.Get; null, the panic, exactly when no buffer is cached or free |
| Bio.Bcache.Bread | kernel/bio.c:92-103 | returns the locked buffer of the block with the contents the block reads as |
| Bio.Bcache.Bwrite | kernel/bio.c:106-112 | the disk changes in that block only, to the buffer's contents |
| Bio.Bcache.Brelse | kernel/bio.c:116-137 | on the list, in place, is BufferCache.Release, with the same set of buffers; the cache stays in order if and only if it was not the last reference to a changed block |
| Bio.Bcache.Bpin | kernel/bio.c:139-144 | is BufferCache.Pin |
| Bio.Bcache.Bunpin | kernel/bio.c:146-151 | is BufferCache.Unpin; the cache stays in order if and only if the block has users or no change |
| Log.Log.AppendOne | kernel/log.c:183-189 | the log block gets the contents of the cached home block; nothing else changes |
| Log.Log.InstallOne | kernel/log.c:73-82 | the home block gets the contents of the log block, and its pin goes unless recovering |
| Log.Log.WriteHead | kernel/log.c:102-114 | the header block holds the count and the block numbers of the in-memory header |
| Log.Log.ReadHead | kernel/log.c:86-97 | the in-memory header is the one on disk |
| Log.Log.WriteLog | kernel/log.c:178-191 | the disks it makes are those of WriteAheadLog.CommitState up to the last logged block |
| Log.Log.InstallCommitted | kernel/log.c:67-83 | continues the disks of WriteAheadLog.CommitState with the installs and gives up every pin |
| Log.Log.Commit | kernel/log.c:193-203 | with others holding buffers of other blocks: the disks made are a prefix of those proved atomic; with one buffer to spare it finishes, and then every home block on disk is what the running system saw |
| Log.Log.RecoverFromLog | kernel/log.c:116-123 | the disks made are a prefix of those of a recovery; with two buffers it finishes with an empty log |
| Log.Boot | kernel/log.c:54-64 | from any recoverable disk and two buffers or more, booting ends with the recovered disk, an empty log and a cache in order |
| Log.Log.LogWrite | kernel/log.c:214-235 | the header lists the block once and pins it once; a block already listed is absorbed; false exactly where the source panics |
| Log.CommitTraceIsAtomic | kernel/log.c:178-203 | at every disk of a commit's trace a reboot recovers the old state before the header write and the new one after |
| Log.RecoverTraceIsStable | kernel/log.c:116-123 | at every disk of a recovery's trace another reboot recovers the same state |
| CommitRun.StepShows | kernel/bio.c:58-137 | no step of a reader changes what a block reads as or the disk; a write puts on disk what the block reads as |
| CommitRun.StateStep | kernel/log.c:178-203 | the k-th block write of commit(): its block and its contents |
| CommitRun.RunAlong | kernel/log.c:178-203 | between any two steps of readers, commit() copies what WriteAheadLog says it copies |
| CommitRun.CommitAmongReaders | kernel/log.c:178-203 | in every interleaving of commit() with readers that take, lock, unlock and give up any buffers, the disk goes through the states proved atomic, home blocks read as before, and a crash at any moment recovers all old or all new blocks |
| FsImage.PutBitAt | kernel/fs.c:75-79 | setting or clearing a bitmap bit changes that bit and no other |
| FsImage.MarkAt | kernel/fs.c:91-105 | marking or freeing a block changes whether that block is in use, and for no other block |
| FsImage.WordRoundTrip | kernel/fs.c:406-415 | a 32-bit word stored in an indirect block reads back, and no other word changes |
| FsImage.AllocKeeps | kernel/fs.c:65-88 | marking and zeroing a free block changes no file's contents and no other block's owner |
| FsImage.AdoptKeeps | kernel/fs.c:382-421 | storing a new block in an empty place of an inode keeps: every block is free or named by exactly one place of one inode |
| FsImage.PokeAt | kernel/fs.c:520-527 | overwriting part of a mapped block changes exactly those bytes of that file |
| FsImage.TruncatedKeeps | kernel/fs.c:425-453 | an image with all blocks of one inode freed keeps the invariant and every other file |
| FsImage.WrittenContent | kernel/fs.c:505-539 | setting the size completes a write: the contents are the old ones with the bytes spliced in at the offset |
| Files.FileSystem.constructor | mkfs/mkfs.c:235-247 | an image without files: the invariant holds, every file is empty, and exactly the blocks below the data blocks are in use |
| Files.FileSystem.Balloc | kernel/fs.c:65-88 | the lowest free block, marked and zeroed; 0 exactly when no block is free |
| Files.FileSystem.Bmap | kernel/fs.c:382-421 | the block of the file, added with its indirect block if missing; contents and other places unchanged; 0 only on a full disk |
| Files.FileSystem.Writei | kernel/fs.c:505-539 | -1 exactly for an offset past the end, a wrapping or an oversized end; otherwise the first r bytes are spliced into the file and no other file changes; fewer than n only for a full disk or an unreadable source; every block that changed was logged, and the blocks logged are bounded |
| Files.FileSystem.Readi | kernel/fs.c:471-496 | the slice of the contents, cut at the end of the file; 0 past the end, -1 when the copy out fails; nothing changes |
| Files.FileSystem.Filewrite | kernel/file.c:134-181 | n exactly if all n bytes are in the file and the offset moved by as many; fewer only on a full disk, for an unreadable source or where the next chunk would pass the largest file; the image goes from its old to its new state by transactions that each log at most MAXOPBLOCKS blocks and change no others |
| Files.OneTransaction | kernel/file.c:149-175 | any chunk of at most 3072 bytes, wherever it starts, logs at most 10 blocks |
| Files.FileSystem.Itrunc | kernel/fs.c:425-453 | the file is empty, exactly its blocks are free, every other file is unchanged, and no bfree panics |
| LinkCount.PromiseKeeps | kernel/sysfile.c:145-147 | raising nlink before the entry exists keeps: nlink is the number of names plus the promised ones |
| LinkCount.WithdrawKeeps | kernel/sysfile.c:163-169 | the error exit of link restores it |
| LinkCount.EnterKeeps | kernel/sysfile.c:152-156 | writing the entry into a linked directory turns the promise into a name |
| LinkCount.EnterIff | kernel/sysfile.c:149-156 | writing the entry keeps the counts if and only if the directory is still linked |
| LinkCount.EnterMiscounts | kernel/sysfile.c:149-156 | an image and a link under way for which the counts come out wrong |
| LinkCount.AllocKeeps | kernel/sysfile.c:265-274 | a fresh inode with nlink 1 has one promised name |
| LinkCount.NewDirKeeps | kernel/sysfile.c:276-289 | a new directory with "." and "..", its entry and the parent's extra link keep all counts and the tree of directories |
| LinkCount.NewDirIff | kernel/sysfile.c:276-289 | mkdir keeps the counts if and only if the parent is still linked |
| LinkCount.MkdirMiscounts | kernel/sysfile.c:276-289 | an image and a mkdir in a removed directory for which the counts come out wrong |
| LinkCount.NewImageInv | mkfs/mkfs.c:117-128 | the counts and the tree are right in a new image |
| LinkCount.EraseKeeps | kernel/sysfile.c:222-233 | clearing a file's entry leaves nlink one too high until it is lowered |
| LinkCount.NamedOnce | kernel/sysfile.c:217-233 | an empty directory has exactly one name |
| LinkCount.ParentStaysLinked | kernel/sysfile.c:225-228 | the parent of an empty directory has another name, and the directory's nlink is 1 |
| LinkCount.DetachKeeps | kernel/sysfile.c:222-233 | removing an empty directory with its entry and its ".." keeps all counts and the tree |
| LinkCount.ReleaseKeeps | kernel/fs.c:336-362 | freeing an inode with nlink 0 leaves no entry naming it |
| Directories.LinkCounts | kernel/sysfile.c:122-302 | with no link under way, every nlink is the number of entries other than "." that name the inode in linked directories |
| Directories.Directories.constructor | mkfs/mkfs.c:117-128 | a new image with its root directory, in order |
| Directories.Directories.Dirlookup | kernel/fs.c:551-575 | the slot of the name, or -1 exactly when no entry has it |
| Directories.Directories.Dirlink | kernel/fs.c:579-606 | fails exactly when the name is there or the write fails, with nothing changed; else the entry is in the first empty slot or at the end |
| Directories.Directories.IsDirEmpty | kernel/sysfile.c:173-186 | true exactly when there is no entry besides the first two |
| Directories.Directories.LinkFirst | kernel/sysfile.c:138-147 | refuses directories; else the link is counted and promised |
| Directories.Directories.LinkSecond | kernel/sysfile.c:149-170 | succeeds exactly when the parent exists on the same device, the name is new and the write succeeds; every other way out restores nlink; the counts are right afterwards exactly if nothing was written or the parent is still linked |
| Directories.Directories.Unlink | kernel/sysfile.c:189-243 | refuses exactly ".", "..", a missing name and a directory that is not empty; else one name is gone, and its nlink was at least 1 |
| Directories.Directories.Create | kernel/sysfile.c:246-302 | an existing file is returned for T_FILE only; a new inode exists with one name exactly when ialloc and all writes succeed; on every failure the inode is free again; the counts are right afterwards exactly if nothing was made or the parent is still linked |
| Directories.Directories.Release | kernel/fs.c:336-362 | an inode without names becomes free |
| PageTable.IndexIsPX | kernel/riscv.h:356-358 | the table indices of the model are the 9-bit fields of the address that PX takes |
| PageTable.PathDown | kernel/vm.c:108-126 | the entry walk finds for an address belongs to the node for exactly that address |
| PageTable.PathUp | kernel/vm.c:108-126 | every last-level node is on the path of exactly one range of addresses |
| PageTable.KallocKeeps | kernel/kalloc.c:68-82 | taking a page off the free list changes no translation and keeps each page in one role |
| PageTable.KfreeKeeps | kernel/kalloc.c:46-63 | giving a page back changes no translation; the list linked through the pages stays duplicate-free |
| PageTable.LeafAt | kernel/vm.c:166-222 | writing one last-level entry changes exactly that translation |
| PageTable.LeafKeeps | kernel/vm.c:166-222 | and keeps the trees and page roles sound |
| PageTable.AddKeeps | kernel/vm.c:113-124 | hanging a zeroed page below a node changes no translation |
| PageTable.NewRootKeeps | kernel/vm.c:226-235 | a zeroed page is a tree that translates nothing |
| PageTable.CutKeeps | kernel/vm.c:301-317 | dropping an emptied node changes no translation of any tree |
| Vm.Memory.constructor | kernel/kalloc.c:26-43 | after kinit every page of the range is free, once, whatever memory contained |
| Vm.Memory.Kalloc | kernel/kalloc.c:68-82 | the first free page, or failure exactly when there is none |
| Vm.Memory.Walk | kernel/vm.c:108-126 | the table page for the address; without alloc nothing changes and failure means there is none; with alloc no translation changes, exactly the missing nodes of the path are taken, and it fails if and only if there are fewer free pages than those |
| Vm.Memory.Mappages | kernel/vm.c:166-195 | exactly the n translations appear and exactly the missing nodes of their paths are taken; it fails if and only if there are fewer free pages than those, with exactly the first k translations made |
| Vm.Memory.Uvmunmap | kernel/vm.c:200-222 | exactly the n translations go, and with do_free exactly their pages become free |
| Vm.Memory.Uvmalloc | kernel/vm.c:255-279 | exactly the new pages appear, zeroed; it succeeds if and only if the free pages suffice for them and the missing nodes, and takes exactly as many; a failure leaves every translation and returns every data page |
| Vm.Memory.Uvmdealloc | kernel/vm.c:285-297 | exactly the pages above the new size go; the size returned |
| Vm.Memory.Uvmcreate | kernel/vm.c:226-235 | a new tree that translates nothing |
| Vm.Memory.FreeSubtree | kernel/vm.c:301-317 | a subtree's nodes are freed and nothing outside it changes |
| Vm.Memory.Freewalk | kernel/vm.c:301-317 | every node of the tree is free, nothing else has changed, and no leaf is met |
| Vm.Memory.Uvmfree | kernel/vm.c:321-327 | every page and node of the tree is free, and nothing else has changed |
| AddressSpace.ProcPagetable | kernel/proc.c:259-289 | a tree with the trampoline and the trapframe only, of exactly three pages, if and only if three are free; every failure leaves all pages and translations as they were; the second mapping cannot fail |
| AddressSpace.ProcFreepagetable | kernel/proc.c:293-299 | every node and owned page is returned; freewalk's panic is out of reach |
| AddressSpace.Uvmcopy | kernel/vm.c:335-363 | the target maps copies of exactly the source's pages with their flags, if and only if the free pages suffice for the copies and the missing nodes; a failure leaves every translation and returns every data page |
| AddressSpace.U2kvmcopy | kernel/vm.c:460-480 | exactly the translations of the range appear in the kernel table, without PTE_U, if and only if the free pages suffice for the missing nodes |
| ProcMemory.ProcKpagetableInit | kernel/vm.c:73-97 | a tree that maps the devices, the kernel, memory and the trampoline and nothing else; no remap panic; it takes exactly 73 pages, fails if and only if there is none, and panics if and only if there are some but fewer than 73 |
| ProcMemory.TakeUsyscall | kernel/proc.c:140-154 | the mapping of USYSCALL beside the trampoline cannot fail |
| ProcMemory.TakeStack | kernel/proc.c:164-177 | a page for the kernel stack if there is one; its mapping in the kernel table cannot fail |
| ProcMemory.Allocproc | kernel/proc.c:109-187 | a process with its five pages and exactly the translations it should have, if and only if 79 pages are free, exactly as many as it takes; it panics if and only if there are fewer and the slot is fresh, or there are 6 to 77; otherwise every page is used as before and every tree translates as before; it returns with the lock held if and only if there are 78 or more |
| ProcMemory.Freeproc | kernel/proc.c:192-236 | exactly the nodes and the memory of both tables and the three private pages become free, for any subset of them that exists; it panics exactly if p->kstack is no page |
| ProcMemory.TakenAndGone | kernel/proc.c:109-236 | what allocproc takes and freeproc gives back cancel out, page by page and translation by translation |
| Shadow.System.constructor | kernel/proc.c:47-59 | a system without processes is in order |
| Shadow.System.Userinit | kernel/proc.c:315-339 | the first process has its one page of code, shadowed; the kernel half of its kernel table shows the kernel; it goes through if and only if 83 pages are free, exactly as many as it takes |
| Shadow.System.Growproc | kernel/proc.c:344-375 | every process's kernel table still shadows its memory, the memory kept has its contents, other processes and the kernel's pages are untouched, the size is as asked or everything is as before; a growth succeeds if and only if it stays below USER_TOP and the free pages suffice for the memory and the missing nodes of both tables, and panics if and only if only the kernel table's nodes are missing; the kernel table stays free of stale entries exactly if the size in pages has not gone down |
| Shadow.System.Fork | kernel/proc.c:380-400 | from allocproc on: the child has a copy of the memory, shadowed, and a kernel half that shows the kernel; on failure every page is used as before; every other process is untouched; when it succeeds, fails and panics in terms of the free pages, the slot and the size |
| Shadow.System.Free | kernel/proc.c:192-236 | freeproc of any process, as wait calls it: exactly its pages return, and every other process is untouched and in order |
| Shadow.System.Exec | kernel/exec.c:91-172 | succeeds exactly if the image is below USER_TOP and the arguments fit; it panics if and only if the image is below USER_TOP and there are fewer free pages than nodes missing for it in the kernel table; after a success the shadow follows the new image, which has its contents, and all the old one's pages are free; on failure the new image's pages are free and the process's memory is as before, and the shadow is right exactly if the image was too large or the process has no memory; others are untouched |
| Shadow.LateFailure | kernel/exec.c:95-172 | the same for any memory states of such a failure |
| Shadow.LateFailureReached | kernel/exec.c:95-172 | from boot with enough memory, the first process gets to such a failure with an image of three pages, two of them stack, and its shadow no longer agrees |
| Shadow.TightIsSafe | kernel/vm.c:483-489 | a kernel table without stale entries maps no free page below USER_TOP |
| Shadow.TightShrunk | kernel/vm.c:483-489 | shrinking leaves a stale entry for every page given up, each to a free page |
| Shadow.TightExec | kernel/exec.c:95-98 | exec leaves stale entries exactly if the new image has fewer pages |
| Shadow.StaleReached | kernel/proc.c:344-375 | from boot, the first process gives up its page and its kernel table maps a page of the allocator |
| Shadow.UsedSlotPanics | kernel/proc.c:109-187 | from boot, the first process forks, the child is freed, the first process grows until six pages are left, and the next fork, in the used slot, panics |
| Shadow.System.CopyinNew | kernel/vmcopyin.c:8-21 | fails exactly for ranges not below the size; otherwise the bytes are those the user table gives |
| Shadow.ShadowReads | kernel/vmcopyin.c:8-21 | below the size both tables give the same bytes |
| Shadow.WalkCopyIs | kernel/vm.c:128-150 | a copy that looks every page up in the user table, as walkaddr does, gives those bytes exactly when every page is open to the user |
| Shadow.DirectCopyIsWalk | kernel/vmcopyin.c:8-21 | the direct copy and the page-by-page copy agree exactly on those ranges |
| Monitor.ReasonKept | kernel/proc.c:651-696 | no step takes the reason to sleep from a sleeper that no finished wakeup loop has passed |
| Monitor.CommittedBefore | kernel/proc.c:651-696 | a process is committed to sleep only by letting the lock go in sleep() |
| Monitor.LoopKept | kernel/proc.c:682-696 | nobody behind the position of a wakeup loop still sleeps on its channel |
| Monitor.RunKeeps | kernel/proc.c:651-696 | every run keeps lock ownership, process fields and sleepers consistent |
| Monitor.NoLostWakeup | kernel/proc.c:651-696 | for any client code that wakes every channel whose reason disappears, any number of processes and every interleaving of the steps of sleep and wakeup: while the lock is free, whoever sleeps or is about to has a reason, and the lock has one holder |
| SleepLock.Behaves | kernel/sleeplock.c:21-41 | acquiresleep and releasesleep meet the client's duties |
| SleepLock.MutualExclusion | kernel/sleeplock.c:21-41 | in every run at most one process has the lock, and while the spinlock is free and the lock is not held nobody sleeps on it or is about to |
| LogAdmission.Behaves | kernel/log.c:126-235 | begin_op, log_write with its guards, and end_op meet the client's duties |
| LogAdmission.Admission | kernel/log.c:126-235 | in every run the logged blocks and all unspent reservations fit into the log, a commit runs alone, end_op and a log_write in a call do not panic about a missing transaction, the panic about the size is met only at its limit, and a sleeper in begin_op implies a running operation or commit, unless no call could ever begin |
| LogAdmission.RoomySafe | kernel/log.c:126-235 | no run panics if the log is roomy enough for what one call takes |
| LogAdmission.PanicRun | kernel/log.c:214-222 | otherwise there is a run in which log_write panics, for any sizes |
| LogAdmission.NoPanicIff | kernel/log.c:126-235 | both: the exact condition on log.size, LOGSIZE, MAXOPBLOCKS, the blocks one call logs and the number of processes |
| LogAdmission.ShippedLog | kernel/param.h:9-10 | with the shipped constants, exactly if no call logs all of its 10 blocks |
| Pipe.SlotOf | kernel/pipe.c:95-96 | the ring slot is the same before and after the counters wrap |
| Pipe.Compare | kernel/pipe.c:89-121 | the full and empty tests on wrapped counters are those on the counts |
| Pipe.Pipe.WriteStretch | kernel/pipe.c:77-103 | puts in exactly a prefix of the remaining bytes, in order, and stops exactly at a closed or killed end, a full pipe, a failed copy or the end |
| Pipe.Pipe.ReadStretch | kernel/pipe.c:118-127 | what it delivers is the next bytes ever put in, in order; a failed copy drops one |
| PipeWaiting.Behaves | kernel/pipe.c:58-130 | readers, writers and closers meet the client's duties |
| PipeWaiting.SleepersHaveReason | kernel/pipe.c:58-130 | while the pipe lock is free a writer sleeps only on a full pipe with an open read end; without late kills a reader of an open pipe sleeps only on an empty one with an open write end |
| PipeWaiting.ReaderNotTold | kernel/pipe.c:84-87 | with a late kill there is a run after which a reader sleeps beside a byte |
| DiskWaiting.Behaves | kernel/virtio_disk.c:168-327 | virtio_disk_rw, with the error exit of alloc3_desc and the wakeup in every free_desc, and the interrupt handler meet the client's duties |
| DiskWaiting.NobodyForgotten | kernel/virtio_disk.c:168-327 | in every run of callers, interrupts and completions no descriptor is lost; while the driver's lock is free, whoever sleeps for descriptors finds fewer than three free because another process waits for the device, and whoever sleeps for a buffer sleeps for one whose completion the handler has not seen |
| ExitWait.Behaves | kernel/proc.c:433-538 | fork's link, reparent, exit and wait meet the client's duties |
| ExitWait.ExitWaitProtocol | kernel/proc.c:433-538 | while wait_lock is free no parent is a zombie or free, every zombie has a parent, and nobody sleeps in wait beside a zombie child; every reaped process exited, is reaped once, with its own status and by the last parent it was given, and no exit is forgotten |
| ExitWait.BootStarts | kernel/proc.c:315-339 | a process table with initproc alone is a start |
| VirtioQueue.TakeKeeps | kernel/virtio_disk.c:271-281 | a device going by its 16-bit counter finds the next request in the ring, formatted as submitted |
| VirtioQueue.CompleteKeeps | kernel/virtio_disk.c:309-324 | completing taken requests in any order, with success or an error, overwrites no entry the driver has not read |
| VirtioQueue.ConsumeKeeps | kernel/virtio_disk.c:309-324 | the handler finds a completed request not reported before, with the status the device gave it and its own buffer |
| VirtioQueue.PostKeeps | kernel/virtio_disk.c:215-281 | submitting keeps every descriptor free or in one chain, and overwrites no waiting entry |
| VirtioQueue.FreeKeeps | kernel/virtio_disk.c:283-291 | freeing a reported chain keeps the same |
| VirtioQueue.NewQueueInv | kernel/virtio_disk.c:119-146 | the queue that virtio_disk_init sets up is in order |
| VirtioQueue.DriverSafety | kernel/virtio_disk.c:61-327 | all of that over every run of requests, device steps and interrupts from the start |
| VirtioQueue.RunKeeps | kernel/virtio_disk.c:155-327 | and what is reported stays reported to the same buffer |
| Virtio.Driver.constructor | kernel/virtio_disk.c:119-146 | all descriptors free, rings and counters zero |
| Virtio.Driver.AllocDesc | kernel/virtio_disk.c:155-166 | the first free descriptor, or -1 exactly when none is free |
| Virtio.Driver.Alloc3 | kernel/virtio_disk.c:199-213 | three different descriptors that were free, if and only if there are three; else nothing changed |
| Virtio.Driver.Submit | kernel/virtio_disk.c:215-281 | the queue state becomes the one of a submitted request if and only if three descriptors are free; else it is unchanged |
| Virtio.Driver.Intr | kernel/virtio_disk.c:294-327 | every completion in the ring is reported, each for the first time; it panics exactly if one of them reports an error, and there |
| Virtio.Driver.FreeChain | kernel/virtio_disk.c:184-197 | exactly the three linked descriptors are freed |
| Virtio.Driver.Finish | kernel/virtio_disk.c:283-292 | once b->disk is clear, the chain of that request is freed and no other |
| HeapArena.SplitKeeps | user/umalloc.c:78-82 | splitting a block keeps every unit in exactly one block |
| HeapArena.MergeKeeps | user/umalloc.c:33-42 | so does joining a block with the one right behind it |
| HeapArena.TakeWholeKeeps | user/umalloc.c:76-77 | unlinking a block keeps the list circular, ordered by address and fully joined |
| HeapArena.TakeTailKeeps | user/umalloc.c:78-82 | so does handing out the tail of a block |
| HeapArena.InsertKeeps | user/umalloc.c:33-43 | so does linking a block in at its place, but for its two neighbours |
| HeapArena.MergeNextKeeps | user/umalloc.c:33-42 | joining with the next block removes that one adjacency |
| Malloc.FreeKeeps | user/umalloc.c:24-44 | the header updates of free are those of linking in and joining on both sides; afterwards no two free blocks touch |
| Malloc.BlocksPartition | user/umalloc.c:24-90 | blocks, free or handed out, do not overlap, and together are exactly the units obtained from sbrk |
| Malloc.SbrkArgument | user/umalloc.c:46-54 | the int that sbrk gets is the size wanted if and only if that is below 2^27 units |
| Malloc.Allocator.FindPlace | user/umalloc.c:29-32 | the scan ends, at the node after which the block belongs |
| Malloc.Allocator.Free | user/umalloc.c:24-44 | the block is no longer handed out, other blocks and the set of units are unchanged |
| Malloc.Allocator.Morecore | user/umalloc.c:46-61 | at least 4096 new units are in the list, or nothing changed; sbrk is asked for another amount than wanted exactly from 2^27 units on |
| Malloc.Allocator.Scan | user/umalloc.c:74-88 | one turn around the list finds a block that is large enough exactly when there is one |
| Malloc.Allocator.Malloc | user/umalloc.c:63-90 | a new block of exactly the units needed; 0 only if nothing fits and sbrk refuses or is asked for the wrong amount; sbrk is asked at most once and exactly when nothing fits, and for the wrong amount exactly from 2^27 units on; other blocks are unchanged |
| ShellGrammar.GetToken | user/sh.c:266-309 | a word token is a maximal run of word characters |
| ShellGrammar.LineMarked | user/sh.c:345-447 | every word and file name in a parsed tree is such a run of the line |
| ShellRoundTrip.TokenAt | user/sh.c:266-309 | on a line of tokens gettoken returns the first and stops before the second |
| ShellRoundTrip.RedirsBack | user/sh.c:375-398 | written redirections parse back in order |
| ShellRoundTrip.ArgsBack | user/sh.c:432-446 | written arguments parse back in order |
| ShellRoundTrip.SimpleBack | user/sh.c:400-447 | a command or a parenthesised line with redirections parses back |
| ShellRoundTrip.PipeBack | user/sh.c:362-373 | a pipeline parses back |
| ShellRoundTrip.LineBack | user/sh.c:345-360 | a line with lists and background commands parses back |
| ShellRoundTrip.RoundTrip | user/sh.c:328-447 | for every tree with legal words and at most nine arguments per command, parsing its written form returns the tree |
| ShellTokens.TokensDecide | user/sh.c:328-447 | lines with the same tokens parse alike, whatever their blanks: to the same tree, or both not at all |
| ShellTokens.AcceptedIsLegal | user/sh.c:328-447 | the tree of every accepted line can be written, and the written line parses to it |
| ShellTokens.AnyBlanks | user/sh.c:266-447 | every line with the tokens of a legal tree parses to that tree |
| Shell.Parser.PeekToken | user/sh.c:311-321 | skips blanks and says whether one of the characters follows |
| Shell.Parser.NextToken | user/sh.c:266-309 | the token of the grammar, and the position behind it |
| Shell.Parser.Redirections | user/sh.c:375-398 | the loop computes the grammar's redirections, or panics where it does |
| Shell.Parser.Arguments | user/sh.c:427-446 | the loop computes the grammar's arguments, or panics where it does |
| Shell.Parser.Block | user/sh.c:400-414 | as the grammar says, and it terminates |
| Shell.Parser.ExecCommand | user/sh.c:416-447 | as the grammar says, and it terminates |
| Shell.Parser.PipeCommand | user/sh.c:362-373 | as the grammar says, and it terminates |
| Shell.Parser.Line | user/sh.c:345-360 | as the grammar says, and it terminates |
| Shell.NulTerminate | user/sh.c:449-494 | NULs are written behind every word of the tree and only over delimiters |
| Shell.WordsAreTexts | user/sh.c:449-494 | then every argument and file name, read as a C string, is its token's text |
| Shell.ParseCommand | user/sh.c:328-343 | fails exactly on syntax errors; otherwise returns the tree, with all its words terminated |
| Shell.CommandRoundTrip | user/sh.c:328-494 | writing a legal tree, parsing and terminating gives commands whose C strings are the tree's words |
| Regex.HereStar | user/grep.c:89-106 | a starred item takes some number of allowed characters and the rest of the pattern follows |
| Regex.HereOne | user/grep.c:93-94 | a single item takes one allowed character |
| Regex.MatchHere | user/grep.c:85-96 | true exactly when a word of the pattern's language is a prefix of the text, all of it for a trailing "$" |
| Regex.MatchStar | user/grep.c:99-106 | true exactly when some number of repetitions works |
| Regex.Match | user/grep.c:72-82 | true exactly when a word of the language occurs in the text, at its start after "^" |

## Left out

- Log.Log.WriteLog: as for Log.Log.Commit.
- Log.Log.InstallCommitted: as for Log.Log.Commit.
- Log.Log.Commit: in place, the buffers that others hold during the call are of blocks that the commit does not use and stay held; every other interleaving with readers is the subject of CommitRun.CommitAmongReaders, on values.
- Log.Log.ReadHead: log blocks are seen as sequences of 32-bit words, and there is one device.
- Files.FileSystem.Writei: block contents are read and written through the image inside a transaction; the locking of the inode is not modelled.
- Directories.Directories.Unlink: one step, since both inodes stay locked until their counts are written.
- Shadow.System.Fork: the search for a free slot of the process table, files, names and scheduling of the child are left out.
- Shadow.System.Userinit: the registers, the name and the working directory of the first process are left out.
- Shadow.System.Exec: loading the ELF file and the bytes pushed onto the new stack are left out; whether they fit is a parameter.
- Shadow.System.Growproc: the kernel's device mappings below USER_TOP are not part of the claim, since a large process overwrites them.
- ProcMemory.Allocproc: etext is a parameter, a page boundary strictly inside the kernel's memory.
- LogAdmission.NoPanicIff: which block a call logs is left out; a call takes a slot or shares one, as long as it has taken fewer than its cap.
- Virtio.Driver.Submit: the memory barriers are left out, and the lock is held throughout; the loops that sleep are the subject of DiskWaiting.NobodyForgotten.
- DiskWaiting.NobodyForgotten: descriptors are counted and not told apart, and a completion that reports an error is left to Virtio.Driver.Intr; it does not claim that a sleeper gets its turn.
- Pipe.Pipe.ReadStretch: does not claim that every byte reaches the user, because the byte whose copy fails is dropped.
- Malloc.Allocator.Malloc: addresses count whole units, so the break is assumed to be a multiple of 16, and block sizes do not wrap at 32 bits, which would need a heap larger than memory; what sbrk does with a wrong amount is not followed.
- Monitor.NoLostWakeup: one lock at a time; a process that sleeps elsewhere counts as outside, and the scheduler's own use of the process locks only delays steps.
- Panics are preconditions, a false, null or halt result, a place of their own, or proved out of reach, as each row says.
- bfree, iupdate, kfree, free_desc and pipeclose: methods of one or two assignments; what they keep is stated by FsImage.MarkAt, PageTable.KfreeKeeps, VirtioQueue.FreeKeeps and PipeWaiting.Behaves.
- kvmmake() and the kernel's own page table, which is built like a process's.
- copyout(), copyinstr_new() and sys_pgaccess: short loops over the same tables as CopyinNew.
- Path names (skipelem, namex), the inode cache and reference counts, file descriptors, and reading the superblock.
- Spinlocks, the scheduler, traps, interrupts, devices other than the disk, and everything written in assembly.
- The rest of mkfs, the console, printf and the remaining user programs.
