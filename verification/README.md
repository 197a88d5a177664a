# proOS kernel: verified models

A Dafny project that models the file systems, the scheduler and the communication
primitives of the proOS kernel and proves what they keep.  `dafny verify dfyconfig.toml`
checks all of it.

The models follow the kernel's own form.  Tables that the kernel changes in place are
classes over arrays, sequences and maps; each routine is a method whose contract ties the
new state to a specification function of the old one, and the properties are proved about
those functions, over all inputs and all runs.

**The FAT volume engine** (`Fat*.dfy`).  A volume is its allocation table and its blocks
(`FatStore`); the operations are functions on volumes that include every failure path
(`FatOps`, `FatPaths`).  The invariant (`FatInvariant`) says that the live chains are sound
and disjoint and cover every cluster in use, and that the directory blocks spell a tree in
which every chain has one owner.  `FatRoutes` says which directory a path leads to on that
tree.  `FatTheorems`, `FatPathTheorems`, `FatDirTheorems`, `FatConserve` and `FatExamples` hold
the main results, over whole runs and for operations by path as callers issue them.
`FatLayout` and `FatWords` say where a volume lies in the flat image; `FatEngine` is the engine
on that byte buffer, proved to take exactly the specified steps.  `FatMount` reads the geometry
of a boot sector in 32-bit arithmetic, and `FatImageBuilder` is the image builder, which
establishes the invariant.

**The scheduler** (`Sched*.dfy`).  A transition system whose steps are the kernel routines
up to their context switch (`SchedModel`, `SchedSteps`), the fairness results (`SchedFair`,
`SchedSpread`, `SchedAhead`), and the routines on arrays with intrusive lists (`SchedEngine`).

**Blocking and communication** (`Sync*.dfy`, `Ipc*.dfy`, `Blocking*.dfy`).  Mutexes,
semaphores, mailboxes, shared regions and channels as protocols over their steps, and the
routines on their tables.
`IpcChannel` is about membership, `IpcTraffic` about messages and waiting receivers.
`Blocking` puts all of them together with sleeping, creation and exit: a wake-up acts on a
process wherever it waits, and `BlockingTheorems` shows that it always waits where it is woken.

**Paths and the RAM file system** (`Vfs*.dfy`, `Ramfs*.dfy`).  Path normalisation, aliases,
mount dispatch, and a flat table of names that behaves as a tree.

`Arith` and `Bytes` write products, quotients and little-endian words by repeated addition
and subtraction, with lemmas that tie them to the built-in operators (`Arith.TimesIs`,
`Arith.QuotRemAre`, `Bytes.Wrap32Is`).

What the code does and its names do not suggest, with the member that states it:

- An append to a file that ends exactly at a cluster boundary overwrites the tail cluster
  (`FatPathTheorems.AppendByPath`, an input in `FatExamples.AppendAtBoundaryFails`).
- An append that runs out of space keeps the clusters it took on the chain, leaves the size as
  it was, and may overwrite the end of the file all the same; `FatPathTheorems.FailedAppendByPath`
  says exactly when and with what, also for files that such failures left.  A replace that runs
  out of space loses the old contents (`FatPathTheorems.FailedReplaceByPath`).
- A mkdir that runs out of space leaves a directory record with head 0
  (`FatMkdir.FailedMkdirIff`).  On FAT16 the record cannot be removed
  (`FatDirTheorems.StrandedForever`), and paths through it stand for the root
  (`FatDirTheorems.StrandedAliasesRoot`, an input in `FatExamples.MkdirOnFullVolume`).  So
  different path texts can stand for one file, and isolation is stated for paths that stand
  for different things.
- A path segment longer than 15 characters ends the walk to a directory there, without an
  error (`FatRoutes.WholePathIff`, inputs in `FatRoutes.OverlongDirectoryIsRoot`).
- Mounting does not check that the table and the buffer are large enough
  (`FatMount.MountWellFormed`, an input in `FatMount.ShortTableMounts`).
- The image builder counts clusters in 32 bits: a file within 511 bytes of the limit gets a
  record and no data (`FatBuilder.Counted`).
- Virtual runtimes of always-ready threads that are within one charge need not stay so: the one
  that runs must not be beyond the limit once its whole slice is charged
  (`SchedSpread.AlwaysWithinIff`, a run from boot in `SchedAhead.AheadLeavesLimit`).
- The idle thread stays marked as running when another thread runs (`SchedIdle.IdleMarkedIff`).
- A ninth waiter for a mutex or a semaphore is not recorded and is never woken
  (`BlockingTheorems.TurnedAwayIff`, `BlockingTheorems.TurnedAwayForever`, inputs in
  `SyncModel.TenthIsTurnedAway`).
- A mutex whose owner exits stays locked for good (`BlockingTheorems.OrphanedIff`,
  `BlockingTheorems.NobodyGetsIn`).
- A semaphore post that finds a waiter wakes it without giving it a unit
  (`SyncModel.PostsInARow`, `SyncModel.WokenWaiterBlocksAgain`).
- Exit takes a process off the waiter lists of the channels it joined only; that is enough, since
  it is on no list at all (`BlockingTheorems.ExitLeavesNoWaiter`).
- An alias is matched against the text of a path before it is normalised, so paths that normalise
  alike may be dispatched differently (`VfsAliasPaths.AlikeIff`, inputs in
  `VfsAliasPaths.AliasSeesText`).

## Model

| member | source | states |
|---|---|---|
| FatTheorems.ApplyKeepsConsistent | kernel/fatfs.c:1342-1510 | one write, append, remove or mkdir by path, successful or failed, keeps the volume consistent: live chains and directory tree still fit together |
| FatTheorems.RunKeepsConsistent | kernel/fatfs.c:1342-1510 | every finite run of these operations, whatever their outcomes, ends in a consistent volume |
| FatTheorems.RunExists | kernel/fatfs.c:1342-1510 | from a consistent volume every list of operations can be carried out; no operation gets stuck |
| FatTheorems.ClusterHasOneChain | kernel/fatfs.c:270-301 | on a consistent volume every data cluster whose table entry is not free lies on exactly one live chain |
| FatTheorems.ChainIsSound | kernel/fatfs.c:97-130 | a live chain starts at its head, repeats no cluster, stays in range, follows the table and ends with an end-of-chain mark |
| FatTheorems.ChainHasOneOwner | kernel/fatfs.c:303-314 | every live chain except the root directory's is owned by exactly one directory record; records with a head below 2 own nothing |
| FatPathTheorems.PathReadsContents | kernel/fatfs.c:1120-1164 | reading a path returns the contents of the file its names lead to, cut to the buffer, and fails exactly when they lead to no file |
| FatPathTheorems.WriteKeepsTargets | kernel/fatfs.c:1342-1394 | no replace or append, successful or failed, makes any path stand for another directory or name |
| FatPathTheorems.ReadAfterWriteByPath | kernel/fatfs.c:1342-1394 | after a successful replace every path that stands for the written file reads exactly the bytes written, for every length including none, and every other path reads what it read before |
| FatPathTheorems.WriteIsolated | kernel/fatfs.c:1342-1394 | a replace or append, successful or failed, leaves what every path reads that stands for something else |
| FatPathTheorems.FailedReplaceByPath | kernel/fatfs.c:1166-1223 | a replace that runs out of space leaves the path of an existing file reading nothing: the old contents are gone |
| FatPathTheorems.FailedAppendByPath | kernel/fatfs.c:1225-1306 | an append that runs out of space, for every file: its record stays, so the size does; the path reads the old bytes with as much of the data laid over them as the last cluster and all free ones took, cut at the size; it reads as before if and only if nothing of the file was hit or what was hit repeats the data (for a file with exactly the clusters it needs: if it ended inside a cluster, else its last cluster reads as the beginning of the data) |
| FatDirTheorems.RemoveByPath | kernel/fatfs.c:1396-1437 | after a successful remove every path that stands for the removed record reads nothing and every other path what it read before; a failed remove changes nothing |
| FatRemoves.RemoveOk | kernel/fatfs.c:1396-1437 | a remove succeeds if and only if the name is there and stands for a file, for a directory with nothing but dot records, or on FAT32 for a directory without a cluster |
| FatDirTheorems.MkdirByPath | kernel/fatfs.c:1466-1510 | a mkdir, successful or failed, leaves what every path reads that stood for something; and what every path reads at all, unless it left a record without a cluster on FAT16 |
| FatMkdir.MkdirCases | kernel/fatfs.c:1466-1510 | a mkdir succeeds if and only if the name is new and there is a cluster for the directory, and one more if its parent has no slot left and can grow |
| FatMkdir.FailedMkdirIff | kernel/fatfs.c:1483-1500 | a failed mkdir changes the volume if and only if the name is new, a slot could be taken (one with room, or with the last free cluster) and no cluster was left; it leaves a directory record with head 0 |
| FatDirTheorems.StrandedAliasesRoot | kernel/fatfs.c:675-726 | after such a failure on FAT16 the path of the directory that was not made stands for the root: a name below it, which read nothing before, reads what that name reads in the root; on FAT32 it reads nothing still |
| FatDirTheorems.StrandedRemove | kernel/fatfs.c:1415-1430 | a record that such a failure left is removable on FAT32 and refused on FAT16 |
| FatDirTheorems.StrandedForever | kernel/fatfs.c:1342-1510 | over every run of operations the record stays on a FAT16 volume |
| FatExamples.MkdirOnFullVolume | kernel/fatfs.c:1483-1500 | a concrete volume that one file fills: a mkdir fails and changes it, the file can then be read through the name of the directory that was not made, and that name cannot be removed |
| FatTheorems.DistinctHeads | kernel/fatfs.c:1342-1394 | different names never share a chain |
| FatPathTheorems.AppendByPath | kernel/fatfs.c:1225-1306 | after a successful append the path reads the old contents followed by the data if and only if there is no data, the file had no cluster, or the data lands behind the old end (the write position is the old size, or the bytes in between repeat the data); for a file with exactly the clusters it needs, if and only if there is no data or the old size is 0 or not a multiple of the cluster size |
| FatExamples.AppendAtBoundaryFails | kernel/fatfs.c:1225-1306 | a concrete volume: a file of exactly one cluster, to which an append of one byte succeeds without the file becoming its contents followed by that byte |
| FatAppendExact.AppendOwned | kernel/fatfs.c:1225-1306 | an append to a file with a chain, too long or too short included, keeps the invariant and the other files; on success the contents are extended exactly under the stated condition and a tight chain is tight again; when space runs out the record stays, all clusters are used up, and the contents are exactly the old ones overlaid by the data |
| FatAppendExact.CutIff | kernel/fatfs.c:1280-1282 | the contents an append without space leaves equal the old ones if and only if the file ends before the write position, or the overwritten part repeats the data and nothing is added to a file that counts more than its chain holds |
| FatAppendExact.LandsAtEnd | kernel/fatfs.c:1225-1306 | writing at the old end of the file is enough for an append to extend its contents, whatever the chain holds behind |
| FatAppendExact.AppendFirst | kernel/fatfs.c:1225-1261 | the same for a file that has no cluster yet: its first cluster is allocated and recorded before any data |
| FatConserve.ReplaceConserves | kernel/fatfs.c:1166-1223 | a replace succeeds if and only if free clusters plus the old chain suffice; success changes the free count by old chain length minus ceil(n / cluster); failure leaves the table with exactly the old chain freed |
| FatConserve.CreateThenRemove | kernel/fatfs.c:1396-1437 | creating a file in an existing slot and removing it again restores every table entry |
| FatWrites.WriteStep | kernel/fatfs.c:1342-1394 | a write keeps the invariant, all other names and all other files; one that does not reach its file changes nothing, and one that does leaves it as stated on success and on failure: replaced, emptied, extended or with its tail overwritten |
| FatRemoves.RemoveStep | kernel/fatfs.c:1396-1437 | a successful remove releases the record's chain, the name and the directory behind it; a failed one changes nothing |
| FatMkdir.MkdirStep | kernel/fatfs.c:1466-1510 | a successful mkdir adds a directory that holds only dot records; one without a cluster left adds a record with head 0; any other failure changes nothing; all keep the invariant and every other name |
| FatDirs.CreateStep | kernel/fatfs.c:612-650 | taking a slot (a reused one, the END slot, or the first of a newly linked cluster) adds the new record, loses no other, and keeps names unique |
| FatDirs.LocateStep | kernel/fatfs.c:458-610 | a scan of a directory finds a record exactly when the directory has one of that name |
| FatSlots.FindIsLookup | kernel/fatfs.c:458-610 | in a directory with unique names and nothing but END after the first END, the scan returns a slot exactly when it holds the name |
| FatTable.ReleaseClearsExactlyTheWalk | kernel/fatfs.c:287-301 | releasing a chain on any table content, cyclic and cross-linked ones included, zeroes exactly the in-range entries the walk reaches |
| FatWords.PutWordReads | kernel/fatfs.c:132-164 | a stored table word reads back masked, changes no byte outside the word, and keeps the top four bits of a FAT32 word |
| FatWords.AllCopies | kernel/fatfs.c:132-164 | with every copy of the table written, all copies show the old table with that one entry changed |
| FatWords.NoClusterReadsAsEnd | kernel/fatfs.c:270-285 | on a well-formed volume no cluster number the allocator can return reads as an end-of-chain mark |
| FatMount.MountWellFormed | kernel/fatfs.c:807-883 | for every boot sector content: the geometry read from it in 32-bit arithmetic is one the engine can work on if and only if the checks mounting leaves out hold; that nothing wraps is shown to be what places the areas in order |
| FatMount.CoveredIsWellFormed | kernel/fatfs.c:807-883 | a mounted volume whose areas fit into the sectors it counts, whose buffer covers those and whose table has an entry per cluster is one the engine can work on |
| FatMount.TableHoldsIff | kernel/fatfs.c:104-164 | the last entry of a table copy ends before the next copy or the root area exactly when the copy is long enough |
| FatMount.ShortTableMounts | kernel/fatfs.c:807-883 | a concrete boot sector that mounts although its table is too short for its clusters: for no buffer size is the volume well-formed, and the entry of its last cluster lies inside the root directory |
| FatMount.MountKeepsClustersBelowEnd | kernel/fatfs.c:851-857 | the 65525 threshold keeps every cluster number of a FAT16 volume below the end-of-chain marks |
| FatRoutes.DirectoryIsReach | kernel/fatfs.c:675-726 | the directory a path resolves to is the one its names lead to from the root on the directory tree, up to the first name of more than 15 characters |
| FatRoutes.WholePathIff | kernel/fatfs.c:695-697 | a resolved directory is the one the whole path names if and only if no name is longer than 15 characters |
| FatRoutes.OverlongDirectoryIsRoot | kernel/fatfs.c:695-697 | a directory part that is one name of 16 to 127 characters is passed over: the path stands for its last name in the root |
| FatRoutes.TargetIs | kernel/fatfs.c:728-778 | a path stands for the directory and 8.3 name its names lead to on the tree, and that directory is live or the number no directory has |
| FatEngine.FatVolume.SectorOffset | kernel/fatfs.c:75-81 | the byte offset of a sector, none if it starts beyond the buffer |
| FatEngine.FatVolume.ClusterOffset | kernel/fatfs.c:83-90 | the byte offset of a cluster, none below cluster 2 or beyond the buffer |
| FatEngine.FatVolume.ReadFat | kernel/fatfs.c:104-130 | reads the table entry; a cluster beyond the table reads as end-of-chain |
| FatEngine.FatVolume.WriteFat | kernel/fatfs.c:132-164 | changes that one entry of the stored volume, in every copy of the table; a cluster beyond the table changes nothing |
| FatEngine.FatVolume.AllocateCluster | kernel/fatfs.c:270-285 | takes the lowest free cluster, marks it end-of-chain and clears it; 0 exactly when none is free, despite the loop's extra iteration |
| FatEngine.FatVolume.FreeChain | kernel/fatfs.c:287-301 | terminates on every table content and releases what the walk reaches |
| FatEngine.FatVolume.ScanBlock | kernel/fatfs.c:480-530 | the match, first free slot and END slot of one directory block |
| FatEngine.FatVolume.DirScan | kernel/fatfs.c:458-610 | along a directory's chain: the match if there is one, else the place where a new record goes, and the last cluster |
| FatEngine.FatVolume.CreateEntry | kernel/fatfs.c:612-650 | makes a fresh record where the specification says, growing the directory by a cluster if it is full |
| FatEngine.FatVolume.WriteReplace | kernel/fatfs.c:1166-1223 | the buffer after replacing a file stores the specified volume, on success and when space runs out |
| FatEngine.FatVolume.WriteAppend | kernel/fatfs.c:1225-1306 | the buffer after appending to a file stores the specified volume, on success and when space runs out |
| FatEngine.FatVolume.DirectoryIsEmpty | kernel/fatfs.c:1308-1340 | true exactly when the directory holds no records but dots before its END |
| FatEngine.FatVolume.LoadChain | kernel/fatfs.c:1092-1118 | copies the bytes along a chain, not more than asked for, and nothing beyond |
| FatEngine.FatVolume.ResolveDir | kernel/fatfs.c:675-726 | walks to the directory a path names; a segment that does not fit its buffer ends the walk |
| FatEngine.FatVolume.ResolveName | kernel/fatfs.c:728-778 | the directory and 8.3 name a path ends in, or none |
| FatEngine.FatVolume.WriteFile | kernel/fatfs.c:1342-1394 | on the byte buffer: takes exactly the specified step and keeps the stored volume consistent |
| FatEngine.FatVolume.RemoveFile | kernel/fatfs.c:1396-1437 | on the byte buffer: takes exactly the specified step and keeps the stored volume consistent |
| FatEngine.FatVolume.MakeDir | kernel/fatfs.c:1466-1510 | on the byte buffer: takes exactly the specified step and keeps the stored volume consistent |
| FatEngine.FatVolume.ReadFile | kernel/fatfs.c:1120-1164 | fills the caller's buffer with what the specification reads, and touches nothing beyond its limit |
| FatWalks.MakeShortName | kernel/fatfs.c:397-456 | the 8.3 name of a segment: text before and after the last dot, folded to upper case and padded, or none |
| FatWalks.FoldPart | kernel/fatfs.c:417-452 | folds a name part to upper case, padded with blanks; fails exactly on a forbidden character or too many of them |
| FatWalks.NextPathSegment | kernel/fatfs.c:652-673 | the next segment of a path, the end, or that the segment does not fit |
| FatWalks.PrepareShortName | kernel/fatfs.c:798-805 | the 8.3 name of a checked segment, or none |
| FatImageBuilder.BuildAndMount | kernel/fat16_image.c:75-152 | from any files the built image mounts with the expected geometry and stores a volume, whatever fitted or was skipped; with distinct, usable names that volume is consistent |
| FatImageBuilder.ImageBuilder.constructor | kernel/fat16_image.c:75-95 | the cleared image with its boot sector and two reserved entries stores the empty volume |
| FatImageBuilder.ImageBuilder.SetFatEntry | kernel/fat16_image.c:68-73 | changes one table entry of the stored volume and no boot sector byte |
| FatImageBuilder.ImageBuilder.AppendFile | kernel/fat16_image.c:97-152 | appends any file if record and data fit, with clusters counted in 32 bits, else changes nothing; a new usable name keeps the volume consistent |
| FatImageBuilder.BootMounts | kernel/fat16_image.c:30-66 | the boot sector the builder writes mounts as a well-formed FAT16 geometry |
| FatImageBuilder.RecordedConsistent | kernel/fat16_image.c:97-152 | a recorded file keeps the volume consistent, also when its size makes the cluster count wrap to none |
| FatImageBuilder.RecordedIsWritten | kernel/fat16_image.c:97-152 | with its clusters counted right, a recorded file is what the engine's own replace-write would give, up to the end-of-chain mark |
| FatBuilder.WriteLaysOut | kernel/fat16_image.c:97-152 | for a new name and enough room, the engine's replace-write lays the file out in the next clusters in order, as the builder does |
| FatImage.RemarkedKeeps | kernel/fat16_image.c:130-131 | which end-of-chain mark ends a chain does not matter to the invariant |
| SchedSteps.NextKeeps | kernel/process.c:798-914 | every step of the scheduler keeps the invariant |
| SchedSteps.ReachableOk | kernel/process.c:798-914 | every state of every run satisfies the invariant |
| SchedSteps.RunExtends | kernel/process.c:798-914 | runs do not rest on the invariant: in every state a run reaches, every enabled step can be taken next |
| SchedSteps.RunFromBoot | kernel/process.c:683-914 | every state that a run from boot reaches satisfies the invariant |
| SchedSteps.BootOk | kernel/process.c:683-726 | the state at boot satisfies the invariant |
| SchedInvariant.ExactlyOnePlace | kernel/process.c:275-364 | a live thread other than the idle one is in exactly one place: current and running, on the queue of its priority exactly once, waiting on none, or exited and current; the sleep list holds only waiting threads |
| SchedSleep.WakeExact | kernel/process.c:497-509 | waking keeps the invariant, pops exactly the due prefix of the sleep list, and appends each thread to the queue of its boosted priority in list order |
| SchedSleep.WakesExactlyTheDue | kernel/process.c:497-509 | thread by thread: a sleeper whose deadline has come becomes ready and queued, every other thread stays as it is |
| SchedSleep.InsertKeeps | kernel/process.c:448-468 | insertion keeps the sleep list sorted and without repetition, behind all equal deadlines |
| SchedSleep.DueIsPrefix | kernel/process.c:497-509 | in a sorted list the due threads are a prefix |
| SchedSelect.ChoiceFacts | kernel/process.c:366-425 | no choice exactly when all queues are empty; otherwise the earliest nonzero deadline, else the least virtual runtime, else the head of the lowest-numbered nonempty queue |
| SchedSelect.TakeReady | kernel/process.c:301-334 | taking the chosen thread removes it from its queue only and keeps the order of the others |
| SchedFair.NoStarvation | kernel/process.c:391-446 | while a fair thread is ready, nothing urgent is ready at a dispatch, no thread is created and no policy changes, other threads are dispatched at most the sum of max(0, p.vruntime + 1 - q.vruntime) times |
| SchedFair.ReturningIsCharged | kernel/process.c:427-446 | a thread that gives up the processor without exiting is charged at least 1 |
| SchedSpread.SpreadStays | kernel/process.c:391-446 | once the virtual runtimes of always-ready fair threads are within the largest single charge and the one that runs, if it is one of them, has the least, they stay within it over every run |
| SchedSpread.DispatchWithinIff | kernel/process.c:391-446 | one dispatch keeps them within the limit if and only if the thread that returns is not charged beyond the limit over any other |
| SchedSpread.AlwaysWithinIff | kernel/process.c:391-446 | over whole runs: always-ready threads that start within the limit are within it in every state if and only if the run dispatches nobody or the member that runs at the start, charged for its whole slice, is not beyond the limit over any other |
| SchedSpread.WithinTwice | kernel/process.c:391-446 | from any start within the limit, whoever runs, they stay within twice the limit over every run |
| SchedAhead.AheadLeavesLimit | kernel/process.c:391-446 | a concrete run from boot: a thread uses slices of 8 and 16 ticks, creates another one in its third slice and returns after 32 ticks; the two are within the limit and the next dispatch takes them out of it |
| SchedIdle.IdleMarkedIff | kernel/process.c:877-914 | in every state a run from boot reaches, the idle thread is marked as running exactly when it was dispatched before, whoever runs now |
| SchedSpread.ChargeBounded | kernel/process.c:427-446 | no single charge exceeds that of the longest slice at the thread's weight |
| SchedEngine.Scheduler.constructor | kernel/process.c:683-726 | the cleared tables with the idle thread are the boot state |
| SchedEngine.Scheduler.EnqueueReady | kernel/process.c:275-299 | appends a thread to the linked queue of its priority; links, tail, bitmap and flag agree with the queues afterwards |
| SchedEngine.Scheduler.RemoveFromReady | kernel/process.c:301-334 | unlinks a thread from the queue it is on and keeps links, tails, bitmap and flags in agreement |
| SchedEngine.Scheduler.DequeueNext | kernel/process.c:336-364 | takes the head of the first nonempty queue, by the bitmap |
| SchedEngine.Scheduler.Pick | kernel/process.c:366-414 | takes out the first eligible thread with the least key, for deadlines and for virtual runtimes |
| SchedEngine.Scheduler.SelectNext | kernel/process.c:416-425 | takes out the thread of the three-stage choice, or none |
| SchedEngine.Scheduler.RemoveFromSleep | kernel/process.c:470-495 | unlinks a thread from the sleep list if it is on it |
| SchedEngine.Scheduler.InsertSleep | kernel/process.c:448-468 | links a thread into the sleep list by its wake time |
| SchedEngine.Scheduler.WakeDue | kernel/process.c:497-509 | pops and wakes the due sleepers |
| SchedEngine.Scheduler.YieldCurrent | kernel/process.c:839-851 | takes the yield step and keeps the invariant |
| SchedEngine.Scheduler.BlockCurrent | kernel/process.c:809-819 | takes the block step and keeps the invariant |
| SchedEngine.Scheduler.SleepCurrent | kernel/process.c:821-837 | takes the sleep step and keeps the invariant |
| SchedEngine.Scheduler.ExitCurrent | kernel/process.c:853-875 | takes the exit step and keeps the invariant |
| SchedEngine.Scheduler.PreemptRunning | kernel/process.c:511-531 | demotes and requeues the running thread; the idle thread stays running |
| SchedEngine.Scheduler.SchedulerTick | kernel/process.c:1003-1027 | takes the tick step and keeps the invariant |
| SchedEngine.Scheduler.WakeThread | kernel/process.c:798-807 | wakes a waiting thread, asleep or not, and keeps the invariant |
| SchedEngine.Scheduler.CreateThread | kernel/process.c:610-675 | makes a thread in the first free slot with a number nobody else has; fails exactly when no slot is free |
| SchedEngine.Scheduler.SetScheduler | kernel/process.c:764-796 | sets policy, weight and deadline of a thread and keeps the invariant |
| SchedEngine.Scheduler.FinishCurrent | kernel/process.c:896-912 | charges the thread that ran and reclaims it if it exited |
| SchedEngine.Scheduler.ScheduleNext | kernel/process.c:877-914 | one turn of the scheduler loop is the dispatch step |
| SyncModel.MutualExclusion | kernel/sync.c:101-191 | over every run: at most one process has the lock, it is the recorded owner, an unlocked mutex has no waiters, the owner never waits, and the lock is handed to waiters in registration order |
| SyncModel.SuccessMeansOwner | kernel/sync.c:118-136 | in every state a run reaches, a pass of the lock loop succeeds exactly for the process recorded as owner after it, which is then alone inside |
| SyncModel.PendingIffNotTurnedAway | kernel/sync.c:138-142 | over every run a process in the middle of a lock call is the owner or on the waiter list if and only if the list was not full at its last pass |
| SyncModel.NineUsersAllRegistered | kernel/sync.c:138-142 | with at most nine processes using a mutex, every process in a lock call is the owner or registered |
| SyncModel.TenthIsTurnedAway | kernel/sync.c:39-48 | processes asking one after the other: from the tenth on they block without being registered |
| SyncModel.TurnedAwayIsForgotten | kernel/sync.c:138-191 | a process that was turned away is never handed the lock, whatever the others do, also when all are done |
| SyncModel.OrphanedForever | kernel/sync.c:146-191 | once the owner is gone the mutex stays locked over every run: nobody is handed the lock and nobody gets in |
| SyncModel.NoBarging | kernel/sync.c:146-191 | while somebody waits, the owner changes only by an unlock and only to the first waiter |
| SyncModel.WaitsFromCreation | kernel/sync.c:217-291 | over every run from creation, completed waits plus count plus posts spent on wake-ups equal initial count plus posts, so waits never exceed initial count plus posts |
| SyncModel.PostsInARow | kernel/sync.c:255-291 | posts in a row, in any state: as many as there are registered waiters only take those off the list, each further one adds a unit |
| SyncModel.WokenWaiterBlocksAgain | kernel/sync.c:255-291 | in every state a run from creation reaches, the waiter a post wakes finds no unit and registers again |
| SyncEngine.WaitList.Exists | kernel/sync.c:29-37 | whether a process is on the waiter list |
| SyncEngine.WaitList.Enqueue | kernel/sync.c:39-48 | appends a waiter; a full list stays as it is |
| SyncEngine.WaitList.Dequeue | kernel/sync.c:50-59 | takes the first waiter out and moves the others up |
| SyncEngine.MutexEntry.LockOnce | kernel/sync.c:111-143 | one pass of the lock loop is the specified step |
| SyncEngine.MutexEntry.UnlockBy | kernel/sync.c:146-191 | unlock is the specified step, with direct handoff |
| SyncEngine.SemaphoreEntry.WaitOnce | kernel/sync.c:227-252 | one pass of the wait loop is the specified step |
| SyncEngine.SemaphoreEntry.PostOne | kernel/sync.c:255-291 | post is the specified step |
| IpcMailbox.MailboxGuarantees | kernel/ipc.c:385-463 | over every run: a process blocked in a receive is a registered waiter and its mailbox holds no matching message; each sender's messages are taken in the order accepted; accepted = delivered + dropped + cleared + queued |
| IpcMailbox.ReceiveOrder | kernel/ipc.c:115-151 | a receive pass, selective or not, takes each sender's oldest messages first |
| IpcMailbox.SendWakes | kernel/ipc.c:153-191 | a blocked receiver is woken by the next accepted message |
| IpcMailboxEngine.Mailbox.PushOwner | kernel/ipc.c:84-100 | registers a process as waiter once, if there is room |
| IpcMailboxEngine.Mailbox.PopWaiter | kernel/ipc.c:102-113 | takes the first waiter out and moves the others up |
| IpcMailboxEngine.Mailbox.TryDequeue | kernel/ipc.c:115-151 | takes out the first matching message and closes the gap |
| IpcMailboxEngine.Mailbox.EnqueueMessage | kernel/ipc.c:153-191 | accepts a message exactly when it is not too long and there is room, and tells whom to wake |
| IpcMailboxEngine.Mailbox.ReceivePass | kernel/ipc.c:428-444 | drops matching messages that may not be received until one may be delivered |
| IpcShare.ShareKeeps | kernel/ipc.c:465-534 | a share is recorded and linked on both sides, or the previous state is restored exactly |
| IpcShare.ExitKeeps | kernel/ipc.c:269-310 | an exiting process leaves no record and no link behind and takes nobody else's |
| IpcShare.TwoSidesAgree | kernel/ipc.c:230-310 | over every run a record is live exactly when owner and target link to it, once per end |
| IpcShare.AgreeFromStart | kernel/ipc.c:230-310 | so it is in every state a run from the empty tables reaches |
| IpcShareEngine.ShareTable.AttachTo | kernel/ipc.c:230-247 | links a process to a record through its first free slot |
| IpcShareEngine.ShareTable.DetachOne | kernel/ipc.c:249-267 | frees the first slot that links to a record |
| IpcShareEngine.ShareTable.ShareRegion | kernel/ipc.c:492-534 | records and links a share, with rollback |
| IpcShareEngine.ShareTable.ProcessStart | kernel/ipc.c:312-334 | an attached process starts without links |
| IpcShareEngine.ShareTable.ProcessExit | kernel/ipc.c:336-383 | a detached process leaves no share and no link |
| IpcShareEngine.ShareTable.DropForPid | kernel/ipc.c:269-310 | drops every share a process takes part in |
| IpcChannel.JoinKeeps | kernel/ipc.c:864-898 | a join succeeds on both sides or changes nothing |
| IpcChannel.LeaveKeeps | kernel/ipc.c:900-930 | a leave ends membership on both sides |
| IpcChannel.JoinThenLeave | kernel/ipc.c:864-930 | leaving what was just joined restores both lists |
| IpcChannel.ExitKeeps | kernel/ipc.c:1104-1142 | an exiting process is a member of nothing afterwards and nobody else's membership changes |
| IpcChannel.MembershipFromStart | kernel/ipc.c:713-930 | in every state a run from the empty tables reaches, channels and processes agree on who is a member of what, and there are at most 32 channels |
| IpcTraffic.TrafficGuarantees | kernel/ipc.c:932-1077 | over every run of creating, joining, leaving, sending, receiving and exiting, with receivers woken from elsewhere at any time: membership agrees, messages leave a channel in the order accepted with none lost, and a blocked receiver is registered |
| IpcTraffic.StaleIff | kernel/ipc.c:1014-1050 | a retry leaves a receiver free and registered if and only if it was registered and found a message (which BlockingTheorems.ListedIffBlocked shows never to be) |
| IpcTraffic.ExitLeavesNoWaiterIff | kernel/ipc.c:1104-1142 | an exiting process is on no waiter list if and only if it was on none of a channel it had not joined |
| IpcTraffic.DeliveryFacts | kernel/ipc.c:1020-1042 | the receiver gets the whole message, or a prefix that fills its buffer and the truncation bit |
| Blocking.NextKeeps | kernel/process.c:798-875 | every step of channels, mailboxes, mutexes, semaphores, sleeping, creation and exit in one system keeps the invariant: every list of waiters names exactly the processes that are blocked there and were registered |
| BlockingTheorems.ListedIffBlocked | kernel/process.c:798-819 | over every run a process is on a list of waiters if and only if it is live, blocked there and was registered, so on one list at most; only mutexes and semaphores leave somebody blocked without being registered |
| BlockingTheorems.OnlyItsListWakes | kernel/process.c:798-807 | over every run no step ends, moves or wakes a blocked process, except that a send, letter, unlock or post on its own list wakes it when it is first on that list |
| BlockingTheorems.NoLostWakeup | kernel/ipc.c:978-1075 | over every run, while a process is blocked on a channel there is for every message queued on it another process that was woken for that channel and has yet to run |
| BlockingTheorems.NoMissedMail | kernel/ipc.c:428-461 | over every run a process blocked in its mailbox has no letter there that it waits for |
| BlockingTheorems.ExitLeavesNoWaiter | kernel/ipc.c:1104-1142 | over every run an exiting process is on no list of waiters of any kind, before and after, although exit looks only at the channels it joined |
| BlockingTheorems.WokenGetsTheLock | kernel/sync.c:118-143 | over every run a process woken in a lock call owns the mutex, and its next pass gets it in alone |
| BlockingTheorems.TurnedAwayIff | kernel/sync.c:39-48 | a lock call or a semaphore wait blocks without being registered if and only if it has to wait and the list holds eight |
| BlockingTheorems.TurnedAwayForever | kernel/sync.c:138-143 | such a process is blocked for good: over every run it stays where it is, whatever the others do |
| BlockingTheorems.OrphanedIff | kernel/process.c:853-875 | over every run a mutex is locked by a process that is gone if and only if some process exited owning it |
| BlockingTheorems.NobodyGetsIn | kernel/sync.c:118-143 | over every run from there the owner on record stays, nobody is inside, and every further lock call blocks |
| BlockingTheorems.PartsGuaranteed | kernel/process.c:798-875 | over every run of the whole system the invariants of the four protocols hold: order and accounting of messages, mutual exclusion and hand-off order, conservation of units |
| BlockingTheorems.RunExtends | kernel/process.c:798-875 | runs do not rest on the invariant: in every state a run reaches, every enabled step can be taken next |
| IpcChannelEngine.ChannelTable.CreateChannel | kernel/ipc.c:834-862 | the create step on the array of records; -1 exactly when the table is full |
| IpcChannelEngine.ChannelTable.FindChannel | kernel/ipc.c:687-699 | the record of a channel by its number, none exactly when there is no such channel |
| IpcChannelEngine.ChannelTable.ProcessStart | kernel/process.c:683-726 | a new process has joined nothing |
| IpcChannelEngine.ChannelTable.JoinChannel | kernel/ipc.c:864-898 | the join step, with its rollback |
| IpcChannelEngine.ChannelTable.LeaveChannel | kernel/ipc.c:900-930 | the leave step, for members and waiters |
| IpcChannelEngine.ChannelTable.SendTo | kernel/ipc.c:932-997 | the send step on the record: who may send, when the ring has room, the message behind the last one, the first waiter off its list and the others moved up |
| IpcChannelEngine.ChannelTable.PutMessage | kernel/ipc.c:956-976 | the ring of a channel: the message goes behind the last one, wrapping around; no other ring or list changes |
| IpcChannelEngine.ChannelTable.PopWaiter | kernel/ipc.c:978-989 | the first waiter out, the others moved up; no other list changes |
| IpcChannelEngine.ChannelTable.ReceiveFrom | kernel/ipc.c:999-1010 | the right to receive is looked at once, before the first pass |
| IpcChannelEngine.ChannelTable.ReceivePass | kernel/ipc.c:1011-1075 | one pass of the receive loop on the record: the oldest message out of the ring, or nothing, or registered and blocked, or refused by a full waiter list |
| IpcChannelEngine.ChannelTable.TakeMessage | kernel/ipc.c:1014-1020 | the ring of a channel: the oldest message out |
| IpcChannelEngine.RowDelete | kernel/ipc.c:746-762 | an entry of a list is taken out and the ones behind it move up; other lists are not touched |
| IpcChannelEngine.CopyOut | kernel/ipc.c:1020-1042 | copies what fits into the receiver's buffer, touches nothing beyond, and sets the truncation bit exactly when something is cut off |
| IpcChannelEngine.ChannelTable.ProcessCleanup | kernel/ipc.c:1104-1142 | takes an exiting process off the members and the waiters of every channel it joined |
| VfsPaths.NormalizeIsCanonical | kernel/vfs.c:69-129 | a normalised path is canonical and is the rendering of the path's segment stack |
| VfsPaths.CanonicalIsUnique | kernel/vfs.c:69-129 | a canonical text renders exactly one segment stack |
| VfsPaths.NormalizeIdempotent | kernel/vfs.c:69-129 | normalising twice is normalising once |
| VfsPaths.NormalizeIdentifiesStacks | kernel/vfs.c:69-129 | two paths normalise alike exactly when their stacks are the same |
| VfsMounts.CoversIsAbove | kernel/vfs.c:211-228 | on canonical paths the prefix test is being above in the tree of segments |
| VfsMounts.ResolveIsLongest | kernel/vfs.c:198-236 | the result is the one mount with the longest matching point; there is one whenever the root is mounted |
| VfsMounts.RelativeRebuilds | kernel/vfs.c:238-247 | mount point and relative part rebuild the path, as text and as segments |
| VfsMounts.DispatchRebuilds | kernel/vfs.c:405-415 | every path that normalises is dispatched once the root is mounted, and point and relative part rebuild its stack |
| VfsAliases.SubstitutesNames | kernel/vfs.c:142-186 | a path that starts with an alias has the alias's names in front, and after the substitution the target's names in front of the same rest |
| VfsAliases.DispatchThroughAlias | kernel/vfs.c:397-415 | a path replaced through an alias is dispatched by the target's names followed by its rest, to the mount with the longest point above |
| VfsAliases.StartsIffAbove | kernel/vfs.c:155-158 | on a canonical path an alias applies exactly when its name is the path or above it |
| VfsAliasPaths.AlikeIff | kernel/vfs.c:142-186 | paths that normalise alike are dispatched alike if and only if the aliases their texts go through, less the segments their rests climb above them, are the same or one goes on where the other leads |
| VfsAliasPaths.PlainAlikeIff | kernel/vfs.c:142-186 | for paths without dot segments: always through the same alias or through none, never with an alias for one of them only, and through two aliases if and only if one continues the other |
| VfsAliasPaths.AliasSeesText | kernel/vfs.c:142-186 | with /a registered for /x/y in the empty table: //a stands for /a and is not replaced; /a/../c stands for /c and is replaced, to end up in /x/c |
| VfsAliases.RegisterKeeps | kernel/vfs.c:674-730 | registering keeps names canonical and distinct, gives the name its new target, and leaves the other aliases alone |
| VfsMounts.AttachKeeps | kernel/vfs.c:307-344 | mounting keeps all points canonical and distinct and keeps every mount that was there |
| VfsMounts.MountAllKeeps | kernel/vfs.c:307-344 | so does every sequence of mounts, refused ones included, and a mounted root stays mounted |
| VfsEngine.NormalizePath | kernel/vfs.c:69-129 | writes the canonical form to the buffer, or fails exactly when there is none that fits |
| VfsEngine.MountTable.ResolveMount | kernel/vfs.c:198-250 | the slot with the longest match and the rest of the path |
| VfsEngine.MountTable.MountAt | kernel/vfs.c:307-344 | mounts at a free slot; refuses a bad path, a point in use and a full table |
| VfsEngine.AliasTable.ApplyAlias | kernel/vfs.c:142-186 | the path with the first matching alias replaced; one that would be too long stays as it is |
| VfsEngine.AliasTable.RegisterAlias | kernel/vfs.c:674-730 | registers in the slot of the name or the first unused one; refuses bad paths, the root, an alias of itself and a full table |
| RamfsModel.RunKeepsTree | kernel/ramfs.c:265-381 | every run of write, append, mkdir and remove keeps names unique and every entry's parent a live directory |
| RamfsModel.RemoveExact | kernel/ramfs.c:320-364 | a removal removes exactly the entry and, for a directory, exactly the entries that have it as an ancestor |
| RamfsModel.WriteThenLookup | kernel/ramfs.c:289-318 | what was written is found under its name, cut to its first 1023 characters if longer, the result counts what was stored, and no other entry changes |
| RamfsModel.AppendThenLookup | kernel/ramfs.c:265-287 | a successful append turns the contents into the old contents followed by the data and changes no other entry |
| RamfsNames.UnderIsAncestor | kernel/ramfs.c:340-360 | the prefix test of the removal is having the directory as an ancestor |
| RamfsNames.ChildIsParent | kernel/ramfs.c:184-222 | the child test of the listing is having the directory as parent |
| RamfsList.ListShowsChildren | kernel/ramfs.c:156-242 | a listing shows direct children only, in table order, and all of them if and only if their lines are shorter than the buffer |
| RamfsEngine.Volume.FindEntry | kernel/ramfs.c:64-74 | the first entry of a name |
| RamfsEngine.Volume.EnsureParent | kernel/ramfs.c:76-105 | whether the parent of a name is a live directory |
| RamfsEngine.Volume.CreateEntry | kernel/ramfs.c:107-139 | finds or makes an entry of a kind, and keeps the tree |
| RamfsEngine.Volume.WriteFile | kernel/ramfs.c:289-318 | the write step on the table |
| RamfsEngine.Volume.AppendFile | kernel/ramfs.c:265-287 | the append step on the table |
| RamfsEngine.Volume.MakeDir | kernel/ramfs.c:366-381 | the mkdir step on the table |
| RamfsEngine.Volume.RemoveEntry | kernel/ramfs.c:320-364 | the removal on the table, with its sweep over the subtree |
| RamfsEngine.Volume.ListDir | kernel/ramfs.c:156-242 | writes the listing to the buffer, or fails exactly when there is none |

## Left out

- Context switches, interrupts and preemption inside a routine: a step runs to its context switch; spinlocks become step boundaries.
- Wrap-around of ticks, virtual runtimes, process numbers and charges: natural numbers. File sizes and boot sector arithmetic are modelled with their 32-bit width.
- Flushing to block devices, the dirty flag and device resolution: input and output to an unseen device.
- FAT directory listing and file size queries: reads that add no state to what is modelled.
- FatEngine.FatVolume.WriteFile: the null-path and not-ready checks of the C interface are not modelled; strings are sequences without a terminator.
- FatImageBuilder.ImageBuilder.AppendFile: consistency is promised for new names that can be used as file names; for others only what the volume becomes is stated.
- FatMount.MountWellFormed: for FAT32 the geometry places an empty root area behind the tables, where the original stores 0 in a field it never reads.
- Process names, stacks, exit codes, thread kinds and scheduler events: no effect on the modelled state.
- Idle thread exit: the idle thread never calls exit, so the exit step is not enabled for it.
- SyncEngine.MutexEntry.LockOnce: blocking and being woken are part of the protocol's steps, not of the method; waking reaches the scheduler's wake routine.
- Mutex and semaphore creation: a search for an unused slot.
- IpcMailboxEngine.Mailbox.ReceivePass: the right to receive from a sender is a parameter (the set of senders allowed); the capability table behind it would only add easy members.
- IpcShareEngine.ShareTable.ShareRegion: the address and page checks and the right to share are decided before the call; the link counters kept beside the tables are not modelled.
- IpcChannelEngine.ChannelTable.SendTo: channel names, and a null data pointer with a nonzero size, are not modelled; a message is one cell of the ring.
- IpcChannelEngine.ChannelTable.JoinChannel: the list of channels that a process record keeps is a sequence here, looked up by process number.
- Blocking.NextKeeps: processes are told apart by number and numbers are not reused; slots of the process table are. A blocking routine registers and blocks in one step.
- Open file handles and the device file system: thin wrappers over the modelled parts.
- RamfsEngine.Volume.ListDir: null pointers of the C interface are not modelled.
- Drivers, graphics, networking, the module loader and the shell.
