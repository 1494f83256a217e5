# Verified model of the xv6 storage stack, process protocol, virtual memory and user algorithms

xv6 is a small Unix-like kernel for RISC-V. This project models its hard parts in Dafny 4.11 and proves what
they are for. Check everything with `dafny verify dfyconfig.toml`.

## What is modelled

**Storage.** A redo log with group commit and recovery sits on an LRU buffer cache. Above them are a block
allocator, inode block maps, byte-level reads and writes, directories, path names and link counts.

- `Blocks`, `LogSpec`, `Log`, `LogMachine`: the log. `LogSpec` gives the disk after every single block write of a
  commit and of a recovery, and what each such disk recovers to. `Log` is `kernel/log.c` as a class that makes exactly
  those writes. `LogMachine` is every interleaving of operations, commits, crashes and recoveries.
- `CacheSpec`, `CacheModel`, `BufferCache`, `CacheRuns`: the cache. `BufferCache` is `kernel/bio.c` as a class over
  linked buffers and refines the pure operations of `CacheSpec`. `CacheModel` is every run of the cache together with
  the pins of the log, each process by the block it asked for. `CacheRuns` drives the class through such runs.
- `Bitmap`, `InodeSpec`, `FileSystem`: `balloc`, `bfree`, `bmap`, `itrunc`, `readi`, `writei`, `filewrite`.
- `Directory`, `Paths`: directories as finite maps, and path resolution over a tree of them.
- `LinkMachine`, `LinkTables`, `LinkSafety`: `link`, `unlink`, `create`, `open`, `close` and `iput` in every
  interleaving, one lock, inode or directory access at a time.

**Processes.** `SleepLocks` is `sleep`, `wakeup`, `yield`, `kill` and the scheduler under sleep locks; `ExitWait` is
`fork`, `exit`, `wait`, `reparent` and `freeproc`. Both are machines with any number of CPUs or process slots, in every
interleaving.

**Virtual memory.** `PageTable`, `VmSpec`, `FreeWalk`, `PageNeed`, `UserCopy`, `Vm`: the three-level Sv39 tree of
section 4.4 of the RISC-V Privileged Architecture, version 20211203, as a map from pages to entries, with the physical
page pool. `PageNeed` counts the pages a range of mappings takes.

**Disk driver.** `VirtioSpec`, `Virtio`, `VirtioRuns`: the request queue against a device that works in its own time and
order, as in sections 2.6 and 5.2 of the Virtio 1.1 specification. `Virtio` has the descriptors and rings, `VirtioSpec`
what happens to the requests, and `VirtioRuns` shows that the first does the second.

**User programs.** `Umalloc` is the coalescing allocator, `ShellGrammar`, `ShellParse` and `Shell` the shell's parser,
`Grep` the regular expression matcher.

## Two promises the code does not keep

The proofs found two places where the code does not do what the code around it relies on. Each has a concrete
witness and an exact condition.

- **The log reservation.** `begin_op` admits operations as if the log had `LOGSIZE` data blocks
  (`kernel/log.c:133`). `log_write` panics when `size - 1` blocks are logged (`kernel/log.c:220`), and `mkfs` makes
  `size == LOGSIZE` (`mkfs/mkfs.c:25`). `LogMachine.ReservationCanPanic` builds a run in which an operation within its
  budget panics. `LogMachine.ReservationHoldsExactlyWhen` proves that no such run exists exactly when
  `size > LOGSIZE`. Even then `LogMachine.AbsorptionCanPanic` builds a run in which a full log makes `log_write` panic
  on a block that is already logged and needs no space.
- **The size given to sbrk.** `morecore` records `nu` units but passes `nu * sizeof(Header)` to `sbrk` as an `int`
  (`user/umalloc.c:54`). `Umalloc.SbrkIsAskedForTheUnits` proves that the two agree exactly for requests of at most
  2^31 - 32 bytes, and gives a request for which `sbrk` is asked for 16 bytes.

## Model

| member | source | states |
|---|---|---|
| LogSpec.HeaderRoundTrip | kernel/log.c:86-114 | reading back the header block gives exactly the block list that was written to it |
| LogSpec.RecoveryKeepsMeaning | kernel/log.c:116-123 | between any two writes of a recovery the disk still recovers to the same home blocks; a completed recovery has put them in place and emptied the log |
| LogSpec.CommitIsAtomic | kernel/log.c:193-203 | crash after any number of a commit's writes, interrupt recovery any number of times: the result is all-new exactly when the first header write was done, all-old otherwise |
| LogSpec.CommitCompletes | kernel/log.c:193-203 | a commit that runs to its end leaves the new contents at home and an empty log |
| LogSpec.CommitTraceParts | kernel/log.c:178-203 | the writes of write_log, write_head, install_trans and write_head, in that order, are the disks of CommitIsAtomic |
| Log.Log.InstallTrans | kernel/log.c:68-83 | copies every logged block home, in order, one disk state per write, and unpins them unless recovering |
| Log.Log.ReadHead | kernel/log.c:86-97 | the in-memory header becomes the one on disk |
| Log.Log.WriteHead | kernel/log.c:102-114 | the header block holds the in-memory header, and is the one block written |
| Log.Log.WriteLog | kernel/log.c:178-191 | every slot gets the cached contents of its block, one disk state per write |
| Log.Log.RecoverFromLog | kernel/log.c:116-123 | every disk on the way recovers to the same home blocks, which at the end are in place with an empty log |
| Log.Log.TryBeginOp | kernel/log.c:126-142 | enters exactly when no commit is running and the reservation for one more operation fits |
| Log.Log.LogWrite | kernel/log.c:214-235 | appends a new block and pins it, absorbs a known one, and refuses exactly where the code panics |
| Log.Log.EndOp | kernel/log.c:146-175 | the last operation out commits; the panic is reached exactly when a commit is running |
| Log.Log.Commit | kernel/log.c:193-203 | every disk on the way recovers to the old home blocks until the header write and to the cached ones from then on |
| LogMachine.StepSafe | kernel/log.c:68-235 | every step of every operation, commit, crash and recovery keeps the invariant and loses no committed group |
| LogMachine.RecoveredIsWholeGroups | kernel/log.c:68-235 | over whole runs with any crashes, the disk always recovers to the initial home blocks with a sequence of commit groups applied, each of whole operations, and none applied earlier is missing |
| LogMachine.LogProtocol | kernel/log.c:126-235 | a commit in progress means no outstanding operation; logged blocks are distinct; blocks logged plus blocks still allowed fit LOGSIZE |
| LogMachine.PanicExactlyWhenFull | kernel/log.c:219-221 | with LOGSIZE data blocks, an operation in its budget meets the panic exactly when the log is full, and then only on a block already logged |
| LogMachine.ReservationCanPanic | kernel/log.c:126-142 | with at most LOGSIZE log blocks, as mkfs makes them, a run in which a fresh block of an operation in its budget panics |
| LogMachine.ReservationHoldsExactlyWhen | kernel/log.c:126-142 | no run has such a panic exactly when the log has more than LOGSIZE blocks |
| LogMachine.AbsorptionCanPanic | kernel/log.c:214-233 | even then, a run in which log_write panics on a block that is already in the log |
| CacheModel.CacheIsPlainMap | kernel/bio.c:58-151 | in every run of any number of processes, with log pins, installs and recycling in any order, every bread returns what a plain map from blocks to bytes holds for the block that was asked for |
| CacheModel.PinnedNeverRecycled | kernel/log.c:229-233 | a block logged and not yet installed is in a referenced buffer with its logged bytes, which bget gives to no other block |
| CacheModel.OneBufferPerBlock | kernel/bio.c:58-89 | in every state of every run a block of a device other than 0 has at most one buffer |
| CacheModel.BufferKeepsBlock | kernel/bio.c:58-137 | in every run, from bget to brelse the buffer a process has is that of the block it asked for, whatever the others do in between, and its sleep lock has one holder |
| CacheModel.ReleasedAgrees | kernel/bio.c:116-137 | in every run a buffer whose last reference goes agrees with the disk, because holders log or write what they change |
| BufferCache.Bcache.Binit | kernel/bio.c:37-53 | the ring holds every buffer once, most recently used first |
| BufferCache.Bcache.Bget | kernel/bio.c:58-89 | takes the cached buffer of the block, else the least recently used unreferenced one, exactly as the pure cache does; fails exactly when there is none |
| BufferCache.Bcache.Unref | kernel/bio.c:124-136 | one reference less, and with the last one the buffer moves to the front; the ring stays a permutation in order of last use |
| BufferCache.Bcache.Brelse | kernel/bio.c:116-137 | gives up the sleep lock, then drops one reference as Unref does, exactly as the pure cache does |
| BufferCache.Bcache.Bwrite | kernel/bio.c:106-112 | the disk gets the buffer's bytes, and nothing else changes |
| BufferCache.Bcache.Bpin | kernel/bio.c:139-144 | one more reference to that buffer, and nothing else |
| BufferCache.Bcache.Bunpin | kernel/bio.c:146-151 | one reference less to that buffer, and nothing else |
| CacheRuns.Run | kernel/bio.c:58-151 | for any sequence of actions of any processes, the linked-list cache returns exactly the bytes the plain map holds for the blocks asked for, read by read |
| Bitmap.MarkBits | kernel/fs.c:65-88 | setting a bit in its byte marks that block and no other |
| Bitmap.ClearBits | kernel/fs.c:91-105 | clearing a bit in its byte frees that block and no other |
| Bitmap.FindFree | kernel/fs.c:65-88 | the scan over bitmap blocks and bits finds the lowest free block, or there is none |
| InodeSpec.AllocatedKeeps | kernel/fs.c:382-421 | a fresh block given to a place keeps every other place, every byte of every file, and single ownership |
| InodeSpec.GrownKeeps | kernel/fs.c:382-421 | whatever bmap does, block ownership stays exact, other places stay, and a new block is fresh and zero |
| InodeSpec.GrownBytes | kernel/fs.c:382-421 | bmap changes no byte of any file |
| InodeSpec.StoredBytes | kernel/fs.c:505-539 | a store through one file's block changes those bytes of that file and no byte of any other |
| FileSystem.Fs.Balloc | kernel/fs.c:65-88 | the lowest free block, marked and zeroed, with its bitmap block and itself logged, or 0 exactly when the disk is full |
| FileSystem.Fs.Bfree | kernel/fs.c:91-105 | frees exactly that block; the panic is reached exactly when it is free already |
| FileSystem.Fs.Bmap | kernel/fs.c:382-421 | the block of a file block, allocating it and the indirect block as needed; the bitmap stays exactly metadata plus reachable blocks |
| FileSystem.Fs.Readi | kernel/fs.c:471-496 | returns exactly the requested slice clipped to the size, and nothing where the 32-bit sum wraps; changes nothing |
| FileSystem.Fs.Writei | kernel/fs.c:505-539 | replaces exactly the bytes written and extends the size; every other file keeps its inode, blocks and bytes; a short write stops at a block boundary past the old end with the disk full; every data, bitmap and inode block that changed is logged |
| FileSystem.Fs.Filewrite | kernel/file.c:161-186 | writes the whole source or stops where writei must; the disk goes through exactly one transaction per three blocks of source, each of which logged every block it changed and at most MAXOPBLOCKS |
| FileSystem.Fs.Itrunc | kernel/fs.c:425-453 | exactly the inode's direct, indirect and indirect-listed blocks are freed, no panic is reached, every other file keeps its bytes, and every changed block is logged |
| Directory.Namecmp | kernel/fs.c:543-547 | 0 exactly when the name cut to DIRSIZ bytes equals the name in the entry |
| Directory.SlotAdds | kernel/fs.c:579-606 | a live entry under a new name in a dead slot, or past the end, adds exactly one binding |
| Directory.SlotRemoves | kernel/sysfile.c:222-224 | zeroing an entry removes exactly its binding |
| Directory.OtherDirectory | kernel/fs.c:579-606 | a change to one directory leaves every other directory and its bindings |
| Directory.Dirlookup | kernel/fs.c:551-575 | the inode number bound to the name and the offset of its entry, or none exactly when the name is unbound |
| Directory.Dirlink | kernel/fs.c:579-606 | adds exactly one binding, or changes nothing: when the name is bound, or there is no dead slot and the disk or the directory is full |
| Directory.ClearEntry | kernel/sysfile.c:222-224 | removes exactly the binding of the entry found, and the write cannot fail |
| Directory.LinkThenLookup | kernel/fs.c:551-606 | a linked name is looked up to the inode linked, in a map with that binding and the old ones; a link that fails, for the reasons of Dirlink, leaves the map and what the name leads to |
| Directory.LookupThenUnlink | kernel/sysfile.c:211-224 | looking a name up and zeroing the entry found removes exactly its binding, so it undoes a link |
| Paths.Skipelem | kernel/fs.c:622-645 | the next element cut to DIRSIZ bytes and the start of the one after it, or none exactly when no element is left |
| Paths.Walker.Namex | kernel/fs.c:651-684 | follows exactly the non-empty elements of the path through the directory maps, and holds one reference to the result and no other |
| Paths.LinkResolves | kernel/fs.c:579-606 | after a link, its path leads to the linked inode, and every path that led somewhere leads there still |
| Paths.Walker.LinkAt | kernel/sysfile.c:149-156 | nameiparent and dirlink: the tree gains exactly that binding or stays as it is, and no reference is leaked |
| LinkSafety.LinksAreSafe | kernel/sysfile.c:123-302 | in every interleaving from a fresh file system: nlink is at least the entries naming the inode; iput frees only an inode without entries and without other references; references are to allocated inodes; no panic, and iput never blocks on the inode it frees |
| LinkSafety.StepKeeps | kernel/fs.c:336-362 | every step of every thread keeps the link, reference, lock and cache invariants |
| LinkSafety.NoPanic | kernel/sysfile.c:188-243 | from any state with the invariant no step reaches a panic |
| SleepLocks.SleepLocksAreSafe | kernel/sleeplock.c:21-52 | in every interleaving: a process asleep on a lock whose inner lock is free finds it held; a lock has one holder; wakeup leaves no sleeper behind; no process runs on two CPUs and spinlocks are taken and released by the right one |
| SleepLocks.StepKeeps | kernel/proc.c:445-616 | every step of every CPU keeps the invariants of scheduler, sleep, wakeup, yield and kill |
| ExitWait.ExitWaitIsSafe | kernel/proc.c:330-435 | in every interleaving: parents are live processes; with wait_lock free no one asleep in wait has a zombie child; each exited pid is a zombie or collected, once; wait reports no children only when there are none |
| ExitWait.ReapedByParent | kernel/proc.c:390-435 | in every run a child is collected by its parent of the moment, after it has exited and left the CPU |
| ExitWait.StepKeeps | kernel/proc.c:279-435 | every step of fork, exit, wait, sleep, wakeup, yield and the scheduler keeps the invariants |
| PageNeed.NeedMore | kernel/vm.c:85-103 | mapping one page more takes exactly the tables that are lacking once the pages before it are mapped |
| PageNeed.GrowTables | kernel/vm.c:85-103 | a table added on the way to a page gives the root exactly that page's group of pages, and no other group |
| PageNeed.FrameNeed | kernel/proc.c:186-203 | trampoline and trap frame share their two tables, so the second mappages of proc_pagetable needs no memory |
| Vm.Vm.Kalloc | kernel/kalloc.c:68-82 | a page that nothing else uses, or 0 exactly when the pool is empty |
| Vm.Vm.Kfree | kernel/kalloc.c:46-63 | the page goes back to the pool |
| Vm.Vm.Walk | kernel/vm.c:85-103 | finds the level-0 table of a page, or adds exactly the tables it lacks out of the free list, changing no mapping of any root; fails exactly when too few pages are free for them |
| Vm.Vm.Mappages | kernel/vm.c:143-172 | maps exactly the first k pages and no other page of any root, taking exactly the tables they lack; stops where a page is mapped already, or where fewer pages are free than the tables of the whole range need |
| Vm.Vm.Uvmunmap | kernel/vm.c:177-199 | unmaps exactly those pages of that root, and frees exactly their physical pages |
| Vm.Vm.Uvmalloc | kernel/vm.c:232-256 | maps zeroed pages up to the new size exactly when the free list holds the pages and the tables they lack, and takes exactly those; otherwise returns 0 with every mapping as it was |
| Vm.Vm.Freewalk | kernel/vm.c:278-294 | frees the table and every table below it, once each |
| Vm.Vm.Uvmcopy | kernel/vm.c:312-340 | succeeds exactly when the free list holds the pages and the tables they lack: the child then has equal bytes on physical pages of its own; otherwise the mappings are as they were |
| Vm.Vm.ProcPagetable | kernel/proc.c:176-206 | with three free pages, a new root with trampoline and trap frame and no other page; with fewer, nothing at all |
| Vm.Vm.ProcFreepagetable | kernel/proc.c:210-216 | exactly the root's tables and user pages go back to the pool, once each |
| Vm.Vm.ForkMemory | kernel/proc.c:279-297 | succeeds exactly when the free pages cover trap frame, root, its two tables and the copy: the child gets a copy of the parent's memory; otherwise every mapping and the set of free pages are as before |
| Vm.Vm.Copyout | kernel/vm.c:358-383 | writes exactly a prefix of the bytes across page boundaries and no other user byte; stops at a page it may not write |
| Vm.Vm.Copyin | kernel/vm.c:388-408 | reads exactly the bytes there, up to a page it may not read |
| Vm.Vm.CopyOutAndIn | kernel/vm.c:358-408 | copyout and then copyin of the range: user memory has those bytes and no other change, and they come back; or a prefix was written, up to a page that may not be |
| Virtio.RingPush | kernel/virtio_disk.c:272-277 | a new entry overwrites no unread one, also where the 16-bit index wraps |
| Virtio.Disk.Alloc3 | kernel/virtio_disk.c:201-213 | takes three free descriptors, or none and exactly when fewer than three are free |
| Virtio.Disk.Make | kernel/virtio_disk.c:215-272 | a chain of three descriptors in no other chain, linked, in the avail slot; or nothing changes |
| Virtio.Disk.FreeChain | kernel/virtio_disk.c:185-197 | frees exactly the three descriptors of the chain, without a panic |
| Virtio.Disk.Intr | kernel/virtio_disk.c:294-327 | releases every completed request, in completion order, while the device goes on; stops only at a bad status |
| VirtioRuns.RoomExactlyWhen | kernel/virtio_disk.c:201-234 | three descriptors are free exactly when fewer than two requests are not over, so a request waits only then |
| VirtioRuns.Run | kernel/virtio_disk.c:156-327 | for any sequence of actions of processes, device and interrupt handler, the driver on descriptors and 16-bit rings does to every request exactly what the queue of VirtioSpec says: its phase, buffer and status, both rings, and the orders of completion, release and return |
| VirtioSpec.EachStageOnce | kernel/virtio_disk.c:215-327 | in every run a request passes each stage from made to over at exactly one step, by the one action that does it for that request |
| VirtioSpec.StagesInOrder | kernel/virtio_disk.c:215-327 | and the stages in their order |
| VirtioSpec.HistoriesAgree | kernel/virtio_disk.c:215-327 | in every run: completions and returns are without repeats, releases are a prefix of the completions, and each history holds exactly the requests that have come that far |
| VirtioSpec.CompletedOnce | kernel/virtio_disk.c:311-326 | in every run a completed request was completed by exactly one step of the device, which had taken it |
| VirtioSpec.ReleasedOnce | kernel/virtio_disk.c:311-326 | in every run a released waiter was released by exactly one round of the interrupt handler, after the completion of its own request |
| Umalloc.Heap.Free | user/umalloc.c:24-44 | the block joins the free list in address order and merges with the neighbours it touches; no unit is lost and no live block changes |
| Umalloc.Heap.Morecore | user/umalloc.c:46-61 | exactly the units sbrk granted are added, at least as many as asked for |
| Umalloc.Heap.Malloc | user/umalloc.c:63-90 | a new block of the right size disjoint from all live ones, with at most one morecore; 0 only when no free block is big enough and sbrk refused; the free list stays circular, ordered and coalesced |
| Umalloc.SbrkIsAskedForTheUnits | user/umalloc.c:46-54 | sbrk is asked for the units recorded exactly for requests of at most 2^31 - 32 bytes |
| ShellGrammar.LineWords | user/sh.c:345-447 | a command derived from a token list has exactly the list's words, in order |
| ShellGrammar.LexedWords | user/sh.c:266-309 | the words of a token list are in order, apart, and take in every word character of the line |
| ShellParse.AcceptsExactlyTheGrammar | user/sh.c:345-447 | the recursive descent returns a command exactly when the declarative grammar derives it within the argument limit |
| Shell.Parser.GetToken | user/sh.c:266-309 | the next token of the line, of its kind and with its ends, and the cursor after it |
| Shell.Parser.NulTerminate | user/sh.c:450-494 | every word of the command ends in a NUL, and no word character is overwritten |
| Shell.Parser.ParseCmd | user/sh.c:328-343 | accepts exactly the lines the grammar derives, returns that command, and each of its words read as a C string is the word that was in the line |
| Grep.Match | user/grep.c:72-82 | true exactly when the text matches the meaning of the pattern |
| Grep.MatchHere | user/grep.c:84-96 | true exactly when the pattern matches at the start of the text |
| Grep.MatchStar | user/grep.c:98-106 | true exactly when some run of the starred character, then the rest of the pattern, matches |

## Left out

- The slab allocator (`kernel/slab.c`) consists of stubs and decides nothing.
- `kernel/pipe.c`, `kernel/console.c`, `kernel/uart.c`, `kernel/exec.c` and `kernel/printf.c` would add easier members only.
- Assembly, traps, the interrupt controller, fences and the memory model: a spinlock is an atomic take and release.
- The kernel's own page table, `uvmfirst`, `uvmclear` and `copyinstr` are not part of this model.
- The three layers are proved one on top of the other's specification, not as one program: `Log` and `FileSystem` work
  on the plain block map that `CacheModel.CacheIsPlainMap` justifies, and `LinkMachine` on atomic inode accesses.
- One disk block write is atomic. Block writes reach the disk in the order they are made.
- Writes whose copy from user memory fails in the middle of a block are not modelled.
- Overflow of the 16-bit `nlink` is not modelled.
- `LinkSafety` excludes looking up `..` in a directory that has been removed.
- Running out of in-memory inode slots (`NINODE`) is not modelled.
- A page-table entry is a record of page number and flags; its packing into 64 bits is not modelled.
- CacheModel.OneBufferPerBlock: speaks of devices other than 0, because all buffers start with device 0 and block 0.
- LogMachine.PanicExactlyWhenFull: assumes more than LOGSIZE log blocks; the other case is ReservationHoldsExactlyWhen.
- FileSystem.Fs.Writei: inode types and device numbers are not part of the inode.
- FileSystem.Fs.Filewrite: covers the inode case; pipes and devices are left out.
- Directory.LookupThenUnlink: the checks that unlink makes between the lookup and the write are in LinkMachine.
- Paths.Walker.Namex: an iput that would free an unlinked inode in the middle of a walk is left to LinkSafety.
- Paths.Walker.LinkAt: does not model nlink, which LinkSafety does.
- Vm.Vm.Uvmalloc: assumes the new size ends below the trap frame, or that the free pages run out below it, as they do
  on a machine with less than 256 GB; the code checks neither.
- Virtio.Disk.Make: the data moved is not modelled, nor the sleep of a caller that finds too few descriptors.
- Umalloc.Heap.Malloc: assumes the request fits the int that sbrk takes, and that sbrk returns fresh memory above base.
- SleepLocks.SleepLocksAreSafe: the killed flag only wakes; what a killed process then does is not modelled.
- ExitWait.ExitWaitIsSafe: open files, the current directory and memory of a process are not modelled there.
- Shell.Parser.ParseCmd: the panics of the parser are refusals; running the command is not modelled.
