# Pintos, modelled in Dafny

A model of the parts of the Pintos teaching kernel (`pintos/src`) where the reasoning is hardest,
with proofs about it: priority donation and the scheduler, read-write locks and semaphores, the
linked lists and their sort, the page and block allocators, the file system with its free map and
open inodes, and the library code below them. `dafny verify dfyconfig.toml` checks all of it.

Concurrency is modelled as transition systems. In the lock routines a step is a region with
interrupts off, or one access to shared state with interrupts on (`Kernel` says which accesses go
together), so that a timer interrupt may come between any two steps of the donation loop. A property
of every run is a lemma about a sequence of actions from a booted kernel, a formatted disk or an
empty heap. Code that updates structures in place is a class or a method on arrays and nodes, proved
against functions on values, and the properties are proved of those functions.

| files | part of the source |
|---|---|
| `Kernel`, `Donation`, `Locks`, `LockRuns` | threads, ready list, locks, donation; every step keeps the invariant |
| `Chains` | inversions over whole runs, with the donors that are still in their loops excepted |
| `Uninterrupted` | the steps of the donation loop, left alone, do what the loop as a whole does |
| `Priorities` | what a thread's priority is, and that donations go back on release |
| `Dispatch`, `Machine` | who runs next; the routines of `thread.c` in place |
| `Scenarios`, `UnnotedWait`, `BrokenChain`, `LoweredDonor`, `LoweredPursuer`, `LoweredHolder`, `LostUpdate`, `FreedHolder`, `NullHolder` | runs from boot in which donation fails |
| `RwLock`, `Semaphore` | read-write locks as monitors, counting semaphores |
| `Order`, `LinkedList` | ordered insertion and stable sorting; the lists and their merge sort |
| `Bitmap`, `Palloc`, `Malloc`, `MallocRuns`, `Allocator` | bitmaps, pages, blocks |
| `FileData`, `FileSystem`, `FileSystemRuns`, `FileSystemLeaks`, `FileSystemReleases`, `FileSystemOps`, `Directory`, `DirectoryRuns`, `CreatedFiles`, `OpenFiles` | files, inodes, the free map, directories |
| `FairScheduler`, `FairShares` | load average, recent CPU time and priorities in fixed point, and what they mean |
| `HashTable`, `Stdlib`, `Print`, `Parse`, `Rendering`, `Ustar`, `Destination`, `Args`, `Division` | library code and the program's first stack |
| `Wrappers`, `Numbers`, `Words` | options, arithmetic, bit operations on words |

## Findings

Where the code does not do what it is for, a lemma gives an input or a run, and another one says
exactly when it does.

- A thread that looks at a lock between the moment its semaphore goes down and the moment its holder
  is set sees no holder, does not donate and queues: `UnnotedWait.InversionHappens`. Taking a lock
  leaves every waiter that outranks its lock with a donor of its rank on the way exactly when
  everybody who wants it and outranks the taker has such a donor: `Chains.TakeExact`.
- A donation to a thread that waits in this way ends there and does not reach the holder further on:
  `BrokenChain.InversionHappens`. Donating leaves every waiter with a donor of its rank on the way
  exactly when `Chains.GaveTendedExact` says.
- A donation lowers a thread that has lowered its base priority while it held a lock. If that thread
  is itself about to donate, the lock it has raised is left with a donor of lower rank:
  `LoweredDonor.DonorFalls`. That is not yet an inversion without a donor, since the holder still
  gets what the lock has; the exact condition is in `Chains.GaveBackedExact`. If the thread is on its
  way to a lock further on, a waiter there may lose the only donor of its rank:
  `LoweredPursuer.PursuerFalls`, and again `Chains.GaveTendedExact`.
- `thread_set_priority` leaves a thread that holds a lock at its old priority when it asks for less,
  also where neither its base priority nor a donation calls for that: `LoweredHolder.HolderStaysHigh`.
  The exact condition for a run is in `Priorities.RunJustifiedExact`.
- The test and the store in the donation loop are not one step, so a lower priority can be stored
  over a higher one: `LostUpdate.InversionHappens`. The exact condition is in `Chains.WriteExact`.
- The loop reads the holder of a lock without a check. A thread that is preempted between donating to
  a holder and going on from it may find it gone: `FreedHolder.FaultHappens`. A thread that is not
  preempted in its loop may come to a lock further on that is being released:
  `NullHolder.FaultHappens`. In every run a thread in its loop, wherever it is in its turn, comes to
  the fault exactly when `Uninterrupted.RunFaults` says, on the chain as it stands, if nothing
  preempts it from then on.
- `filesys_create` loses the extent of a file whose entry cannot be added
  (`FileSystemLeaks.LeakHappens`); the exact conditions for every call are in
  `FileSystemLeaks.LeakExact`.
- The number of pages for a large block wraps around, and `malloc` then returns a block that is too
  short (`MallocRuns.ShortBlock`, `Malloc.PageCntExact`).
- A conversion with a zero flag and a negative `*` width pads twice (`Parse.BothFlags`,
  `Parse.PaddedTwice`); exactly when is in `Parse.PadsTwice` and `Print.FieldWidth`.
- `dir_add` overwrites an entry when reading it fails for want of memory (`Directory.EntryLost`); the
  exact condition for a call is in `Directory.AddIsMap`, and for a run in `DirectoryRuns.ListedExact`.
- `umod64` returns 32 bits of a remainder that may have 64 (`Division.UModTooWide`,
  `Division.UMod64`), and the quotient of the most negative number and -1 is itself
  (`Division.SDiv64`).
- `strip_antisocial_prefixes` looks at the front of a name only, so that a name with `..` further on
  still leads out of the destination (`Destination.LeavesDestination`); exactly when is in
  `Destination.StrippedInside`.
- `ustar_parse_header` takes what `ustar_make_header` writes for a regular file of negative size for
  too large a file (`Ustar.RoundTrip`).

## Model

| member | source | states |
|---|---|---|
| Chains.NoPriorityInversion | pintos/src/threads/synch.c:178-246 | in every careful run from boot no thread outranks a thread that it waits for, directly or through others, noted or only queued, unless a donor on that chain is still in its loop |
| Chains.NoInversionAtRest | pintos/src/threads/synch.c:187-195 | with nobody in the loop there is no exception |
| Chains.RunExact | pintos/src/threads/synch.c:187-207 | in a run every waiter that outranks its lock has a donor of its rank on the way, and every lock that outranks its holder one about to give, at every step, exactly when every step meets its condition: the taker is the top contender, the store is the highest, the donation can be followed and spares the other donors |
| Chains.StepExact | pintos/src/threads/synch.c:178-246 | for every step of the lock routines and the scheduler: it keeps the two exactly when it meets its condition; all steps but taking, storing and donating always do |
| Chains.TakeExact | pintos/src/threads/synch.c:197-207 | taking a lock leaves every waiter that outranks its lock with a donor of its rank on the way, and every lock that outranks its holder with one about to give, exactly when everybody who wants the lock and outranks the taker has a donor of its rank on the way |
| Chains.WriteExact | pintos/src/threads/synch.c:190-191 | storing a priority does so exactly when every waiter that outranks the writer has another donor of its rank on the way |
| Chains.GaveTendedExact | pintos/src/threads/synch.c:192-193 | after a donation every waiter that outranks its lock has a donor of its rank on the way exactly when it lifts no thread above a lock that the thread awaits without having noted it, and lowers no thread that is the only donor of its rank on the way elsewhere |
| Chains.GaveBackedExact | pintos/src/threads/synch.c:192-193 | after a donation every lock that outranks its holder has a donor of its rank about to give exactly when it lowers no such donor |
| Chains.GaveExact | pintos/src/threads/synch.c:192-193 | the two together |
| Donation.UpdatedIsEffective | pintos/src/threads/thread.c:312-324 | the new priority is the largest of the base priority and the donations to the held locks, and the locks held are the same |
| Donation.DonateRestores | pintos/src/threads/synch.c:187-195 | run as a whole, with other donors anywhere in their loops: the loop changes priorities only, keeps the ready list in order and loses no donation; if no other donation is about to be given, it removes the inversion of a new waiter whatever the chain of holders |
| Donation.RaisedProgress | pintos/src/threads/synch.c:190-194 | each turn leaves one lock fewer below the donor, except for at most one that raises the donor itself, so the loop ends, also when holders wait in a circle |
| Donation.DonateFaults | pintos/src/threads/synch.c:192-193 | the loop reads the fields of a missing holder exactly when the chain, as it stands before the loop, leads through locks below the donor to one without holder, wherever other donors are |
| Uninterrupted.LoopAlone | pintos/src/threads/synch.c:187-195 | in every state of a run, a thread in its loop that is not preempted any more, wherever it is in its turn, takes its steps to the end of the loop, or to the fault, and to the state that the rest of the loop gives as a whole |
| Uninterrupted.RunFaults | pintos/src/threads/synch.c:187-195 | in every run, a thread in its loop that is left alone from then on comes to the fault exactly when the chain, as it stands, leads to a lock without holder: about to test, from the lock it is at through lower ones; about to store, donate or follow, at that lock or beyond its holder through locks lower than what the thread has after donating |
| Priorities.RunGivesBack | pintos/src/threads/synch.c:238-241 | in every run, whatever is on the way elsewhere, a thread that releases a lock keeps its other locks and has exactly the largest of its base priority and the donations to those, and nothing else changes |
| Priorities.EverythingGivenBack | pintos/src/threads/synch.c:234-246 | in every run from boot a thread that holds no lock has exactly the priority that it last asked for |
| Priorities.RunEffective | pintos/src/threads/thread.c:312-324 | in every run from boot whose calls of thread_set_priority are modest, a thread with no donation on the way to it has exactly the largest of the priority it last asked for and the donations to the locks it holds |
| Priorities.RunJustifiedExact | pintos/src/threads/thread.c:458-470 | at every point of a run from boot no thread is above its base priority and all donations to it, exactly when no holder of locks asks for less than its priority where no lock of its accounts for that |
| LockRuns.StepKeeps | pintos/src/threads/synch.c:58-115 | every step keeps the invariant of locks, queues, owners, priorities and ready list |
| LockRuns.MutualExclusion | pintos/src/threads/synch.c:178-246 | in every run at most one thread is between taking and giving up a lock |
| LockRuns.NoLostWakeup | pintos/src/threads/synch.c:58-115 | in every run, if threads are queued for a lock, some thread owns it or one that is awake contends for it |
| Locks.UpWakes | pintos/src/threads/synch.c:99-115 | sema_up wakes a waiter of the highest current priority, and the others stay queued |
| Dispatch.RunFifo | pintos/src/threads/thread.c:276-287 | over every run the ready threads of a priority stand in the order in which they last joined them, by becoming ready or by a donation, and whoever gets the processor has joined before its equals that are still ready |
| Dispatch.StepFifo | pintos/src/threads/thread.c:427-442 | each step but a donation to a ready thread treats the ready threads of a priority as a queue: joined at the back, served from the front |
| Dispatch.DonateBand | pintos/src/threads/thread.c:301-309 | a ready thread that gets a donation goes behind its new equals, and the others stay in order |
| Dispatch.RunTop | pintos/src/threads/thread.c:674-679 | after every step that reschedules no ready thread outranks the running one, and the idle thread runs only when none is ready |
| Kernel.YieldKeepsReady | pintos/src/threads/thread.c:427-442 | the ready list holds exactly the ready threads, each once, in order, and the next thread has maximal priority |
| Machine.Machine.InsertByPriority | pintos/src/lib/kernel/list.c:375-387 | the walk stops at the first thread that the new one outranks |
| Machine.Machine.ThreadYield | pintos/src/threads/thread.c:427-442 | in place; the invariant of the ready list holds again, and no ready thread outranks the new running one |
| Machine.Machine.ThreadBlock | pintos/src/threads/thread.c:231-237 | the same for a thread that blocks |
| Machine.Machine.ThreadUpdatePriority | pintos/src/threads/thread.c:312-324 | in place; the priority is the effective one, and the held locks are sorted and the same (the list is sorted by the function that `LinkedList.Sort` is proved equal to) |
| Machine.Machine.DonateAlong | pintos/src/threads/synch.c:187-195 | the loop in place, with other donors anywhere in theirs: it fails exactly when the chain leads to a lock without holder, and otherwise loses no donation and, if no other is about to be given, leaves no inversion |
| UnnotedWait.InversionHappens | pintos/src/threads/synch.c:187-207 | a run of six steps from boot to an inversion with nobody in the loop |
| BrokenChain.InversionHappens | pintos/src/threads/synch.c:187-195 | a run of 18 steps from boot to an inversion along a chain of three threads, whose donor has gone through its loop |
| LoweredDonor.DonorFalls | pintos/src/threads/thread.c:458-470 | a run of 35 steps from boot whose next step is a donation that lowers a donor and leaves a lock without one of its rank |
| LoweredPursuer.PursuerFalls | pintos/src/threads/thread.c:458-470 | a run of 46 steps from boot whose next step is a donation that lowers a donor and leaves a waiter without one of its rank |
| LoweredHolder.HolderStaysHigh | pintos/src/threads/thread.c:458-470 | a run of five steps from boot after which a thread is above its base priority and every donation to it |
| LostUpdate.InversionHappens | pintos/src/threads/synch.c:190-191 | a run of 21 steps from boot in which a store undoes a donation |
| FreedHolder.FaultHappens | pintos/src/threads/synch.c:192-193 | a run of 13 steps from boot with two threads and one lock, whose next step reads what a missing holder waits for |
| NullHolder.FaultHappens | pintos/src/threads/synch.c:192-193 | a run of 24 steps from boot whose next step reads the fields of a missing holder |
| RwLock.EveryRunIsSafe | pintos/src/threads/synch.c:258-313 | in every run a writer that has the lock has it alone, queued threads do not stay stuck, and the counters count |
| RwLock.WritersFirst | pintos/src/threads/synch.c:270-287 | in every run a reader is let in only where no thread is active or waits as a writer, a writer only where no thread is active, and either queues only where it is not let in, by where the threads are and not by the counters |
| RwLock.LeaveExact | pintos/src/threads/synch.c:297-309 | who is woken: by a writer, one writer if any waits and otherwise all readers; by the last reader, one writer; nobody else |
| RwLock.StepKeeps | pintos/src/threads/synch.c:266-313 | every step of every thread keeps the invariant of the monitor |
| RwLock.Monitor.TryEnter | pintos/src/threads/synch.c:266-290 | the loop condition and what follows, in place: is counted in exactly when nobody is in the way, and otherwise queues and gives the guard up; the invariant of the monitor is kept |
| RwLock.Monitor.Leave | pintos/src/threads/synch.c:293-313 | counting out and waking, in place: exactly those wake that should, and the invariant of the monitor is kept |
| Semaphore.EveryRunConserves | pintos/src/threads/synch.c:58-115 | in every run the value is the initial one plus ups less completed downs, and no wake-up is lost |
| Order.StableSortUnique | pintos/src/lib/kernel/list.c:336-370 | a list in order with ties in their old order is the stable sort, so nothing else meets its description |
| Order.SortIsStable | pintos/src/lib/kernel/list.c:336-370 | elements that tie keep their order |
| Order.InsertTies | pintos/src/lib/kernel/list.c:375-387 | a new element joins its ties at the back, and the others keep their order |
| LinkedList.Insert | pintos/src/lib/kernel/list.c:144-151 | the nodes form the list with the element in front of the given one |
| LinkedList.Remove | pintos/src/lib/kernel/list.c:215-221 | the nodes form the list without the element |
| LinkedList.Splice | pintos/src/lib/kernel/list.c:157-175 | the nodes form the list with the range moved |
| LinkedList.SpliceAcross | pintos/src/lib/kernel/list.c:157-175 | the same between two lists |
| LinkedList.InplaceMerge | pintos/src/lib/kernel/list.c:318-334 | two adjacent runs become one, stably, and nothing else moves |
| LinkedList.Sort | pintos/src/lib/kernel/list.c:339-370 | the natural merge sort on nodes is the stable sort of the list, and ends |
| LinkedList.InsertInOrder | pintos/src/lib/kernel/list.c:375-387 | on nodes; the element goes behind those it ties with |
| Bitmap.Map.Scan | pintos/src/lib/kernel/bitmap.c:235-247 | the first group of bits that all have the value, if there is one |
| Bitmap.Map.ScanAndFlip | pintos/src/lib/kernel/bitmap.c:256-261 | first fit: flips that group, or changes nothing |
| Bitmap.Map.SetMultiple | pintos/src/lib/kernel/bitmap.c:169-178 | the bits of the range, and no others |
| Palloc.RunsDisjoint | pintos/src/threads/palloc.c:65-126 | outstanding runs of pages are in the pool and disjoint |
| Palloc.Pool.GetMultiple | pintos/src/threads/palloc.c:65-91 | the first free run of pages, which is then in use |
| Palloc.Pool.FreeMultiple | pintos/src/threads/palloc.c:103-126 | the pages are free again; whether the assertion held |
| Malloc.MallocKeeps | pintos/src/threads/malloc.c:83-142 | a block that was not allocated, large enough exactly when size and header do not overflow, and no other block changes |
| Malloc.MallocFails | pintos/src/threads/malloc.c:83-134 | no block is returned exactly when nothing is asked for; or the smallest descriptor that holds the request has no free block and no page is free; or none holds it, and its number of pages is 0 or not free in a row |
| Malloc.MallocCosts | pintos/src/threads/malloc.c:92-141 | a block comes from the smallest descriptor that holds it, and takes a page, the first free one, only if that has no free block; a large one takes the pages its size calls for |
| Malloc.FreeKeeps | pintos/src/threads/malloc.c:196-234 | frees that block and no other, and keeps the invariant |
| Malloc.PageCntExact | pintos/src/threads/malloc.c:97-103 | the pages hold the request exactly when rounding it up with its header does not wrap around; for a request that gets pages at all, exactly when adding the header does not |
| MallocRuns.EveryRunIsSafe | pintos/src/threads/malloc.c:83-234 | in every run blocks are disjoint, leave headers alone, arenas count their free blocks, and used pages are those of outstanding runs |
| MallocRuns.RunFails | pintos/src/threads/malloc.c:83-142 | both in every run, with a block that is not in use |
| MallocRuns.FreeReturnsPages | pintos/src/threads/malloc.c:214-232 | in every run freeing a block returns its pages exactly when no other block is in them |
| MallocRuns.ShortBlock | pintos/src/threads/malloc.c:97-111 | a request of 2^32 - 1 bytes gets less than a page |
| Allocator.Arenas.Malloc | pintos/src/threads/malloc.c:83-142 | in place: a block that was not allocated, its size as stated above, no other block changes, and the heap is sound again; none exactly when nothing is left that would do |
| Allocator.Arenas.Free | pintos/src/threads/malloc.c:196-234 | in place: that block and no other is free again, the heap is sound, and the assertions of the original hold |
| FileData.ReadAt | pintos/src/filesys/inode.c:165-208 | the transfers by sector read the bytes of the flat file, and how many |
| FileData.Device.WriteAt | pintos/src/filesys/inode.c:215-268 | the transfers by sector store the bytes at their place and change no other |
| FileData.WriteRefines | pintos/src/filesys/inode.c:215-268 | the file has the data at the offset and is otherwise as it was |
| FileData.ReadBack | pintos/src/filesys/inode.c:165-268 | reading what was written gives it back |
| FileSystemRuns.EveryRunIsSafe | pintos/src/filesys/filesys.c:39-77 | in every run, whatever fails: sectors in use are marked and belong to one inode, counts are exact, headers agree, and no entry names a removed inode |
| FileSystemRuns.WritesStayInside | pintos/src/filesys/inode.c:215-268 | in every run a write to an open file leaves the contents of every other inode in use as they were |
| FileSystemRuns.FormatBuilds | pintos/src/filesys/filesys.c:80-87 | formatting succeeds exactly on devices that are large enough, and leads to the state that runs start from |
| OpenFiles.OpenRefers | pintos/src/filesys/filesys.c:56-65 | opening returns a file with a reference of its own to its inode, or changes nothing |
| OpenFiles.ReopenRefers | pintos/src/filesys/file.c:16-34 | and so does reopening |
| OpenFiles.RunHandles | pintos/src/filesys/file.c:16-43 | in every run the files accounted for are those returned by open and reopen and not closed, and those that deny writes are the ones that were told to |
| OpenFiles.HandlesAreSafe | pintos/src/filesys/inode.c:135-160 | in every run a file returned and not closed, also one removed meanwhile, keeps its inode open with a reference for each such file, and its sectors marked and its own; writes to it change nothing while one of them denies them |
| CreatedFiles.CreateSucceeds | pintos/src/filesys/filesys.c:39-49 | in every run a create that can read the directory succeeds exactly when memory suffices, a sector and besides it enough sectors in a row are free, the name is one for a file and not listed, and fewer than 16 files are |
| CreatedFiles.RunSized | pintos/src/filesys/inode.c:58-91 | in every such run every file listed has the size it was created with |
| FileSystemReleases.EveryReleaseIsAllowed | pintos/src/filesys/free-map.c:37-41 | in every run, whatever is called next, the assertion of free_map_release holds at every call |
| FileSystemReleases.StepAccounts | pintos/src/filesys/inode.c:135-153 | those calls are all that clears marks |
| FileSystemLeaks.LeakExact | pintos/src/filesys/filesys.c:39-49 | a call loses sectors exactly under the conditions named |
| FileSystemLeaks.NothingLost | pintos/src/filesys/free-map.c:25-41 | in a run without such calls every marked sector belongs to an inode in use |
| FileSystemLeaks.LeakHappens | pintos/src/filesys/filesys.c:42-45 | on every formatted device with two sectors to spare, creating a file of one byte without a name loses one |
| FileSystem.CloseKeeps | pintos/src/filesys/inode.c:135-153 | closing keeps the invariant, and the last reference to a removed inode gives up its sectors, all of them marked |
| FileSystemOps.FileSys.FilesysCreate | pintos/src/filesys/filesys.c:39-49 | scans, allocations, failure paths and releases in place lead to the state of the model, and its invariant is kept |
| FileSystemOps.FileSys.FilesysOpen | pintos/src/filesys/filesys.c:56-65 | the same for opening: one more reference for the file that is returned, and no change on failure |
| FileSystemOps.FileSys.FilesysRemove | pintos/src/filesys/filesys.c:71-77 | the same for removing, with the sectors freed unless the file is open |
| FileSystemOps.FileSys.InodeOpen | pintos/src/filesys/inode.c:94-120 | opening twice gives the same inode with one more reference |
| FileSystemOps.FileSys.InodeClose | pintos/src/filesys/inode.c:135-153 | the list of open inodes and the free map after a close |
| Directory.AddIsMap | pintos/src/filesys/directory.c:115-150 | the directory is a map from names; if no read fails dir_add adds one name or fails for a stated reason, and whatever fails it adds that name and no more exactly when the slot it takes is free and the name was not there, or is the slot of that name |
| Directory.EntryLost | pintos/src/filesys/directory.c:133-146 | a failing read makes one entry replace another |
| Directory.EraseIsMap | pintos/src/filesys/directory.c:155-185 | erasing an entry removes its name and no other |
| DirectoryRuns.ListedExact | pintos/src/filesys/filesys.c:39-77 | in every run, whatever fails, the directory is at every point the map of the files created and not removed, with their inodes, exactly when every create that succeeded took a free slot for a name that was not there, or the slot of that name |
| DirectoryRuns.RunIsMap | pintos/src/filesys/directory.c:115-185 | so it is in every run whose creates read the directory without failure |
| DirectoryRuns.OpenFinds | pintos/src/filesys/filesys.c:56-65 | in every such run opening finds exactly the files created and not removed, each with the inode that it was created with |
| DirectoryRuns.RemoveFinds | pintos/src/filesys/filesys.c:71-77 | in every such run removing succeeds exactly for those files, as far as memory goes |
| Directory.NamesExact | pintos/src/filesys/directory.c:190-201 | reading a directory from start to end gives each of its names once |
| Directory.Dir.ReadDir | pintos/src/filesys/directory.c:190-201 | each call gives the next name, until there are no more |
| FairScheduler.EveryRunIsBounded | pintos/src/threads/thread.c:337-368 | in every run with at most 163 ready threads a sample, load average and recent CPU time stay within bounds that fit an int |
| FairShares.LoadTracks | pintos/src/threads/thread.c:349-356 | over every history the load average is within 120 units of the last place of 59/60 of the old one and 1/60 of the ready threads, in real numbers |
| FairShares.LoadConstant | pintos/src/threads/thread.c:349-356 | with n threads ready at each of k samples it is within those of n * (1 - (59/60)^k) |
| FairShares.LoadRises | pintos/src/threads/thread.c:349-356 | and never falls |
| FairShares.LoadGrows | pintos/src/threads/thread.c:356-356 | a sample does not lower the load exactly when it is at most n, rounded down to a multiple of 60 units |
| FairShares.CpuTracks | pintos/src/threads/thread.c:362-366 | over every history recent CPU time is at most what the decay by 2 * load / (2 * load + 1) gives in real numbers, and falls short by no more than a bound that does not grow with time |
| FairShares.PriorityExact | pintos/src/threads/thread.c:370-384 | the priority is 63 less a quarter of the recent CPU time and the nice value, rounded down, within the range |
| FairShares.PriorityFalls | pintos/src/threads/thread.c:370-384 | neither more CPU time nor a larger nice value raises it, and with neither it is 63 |
| FairShares.LessRunsFirst | pintos/src/threads/thread.c:349-384 | over every history a thread that ran for no more ticks in any second, and is no nicer, gets no lower a priority |
| FairScheduler.Clock.TimerInterrupt | pintos/src/devices/timer.c:139-150 | no fixed-point operation overflows, the priorities are those that the numbers call for, and the load average and every thread's recent CPU time stay those of the recurrence over its history, so that the bounds hold of the clock; the bound on ready threads may rise from one tick to the next |
| HashTable.Table.Insert | pintos/src/lib/kernel/hash.c:85-95 | the set of elements with the new one, unless an equal one is there, also when rehashing finds no memory |
| HashTable.Table.Replace | pintos/src/lib/kernel/hash.c:99-110 | the new element in place of the equal one |
| HashTable.Table.Delete | pintos/src/lib/kernel/hash.c:125-132 | the set without the element equal to the given one, which is returned |
| HashTable.Table.Rehash | pintos/src/lib/kernel/hash.c:288-343 | the same elements, each in the bucket of its hash |
| HashTable.VisitsOnce | pintos/src/lib/kernel/hash.c:173-203 | an iteration visits each element once |
| HashTable.Visit | pintos/src/lib/kernel/hash.c:173-203 | going on until there is no more gives all elements, bucket by bucket |
| Stdlib.Sort | pintos/src/lib/stdlib.c:112-129 | the heap sort leaves a permutation in order |
| Stdlib.BinarySearch | pintos/src/lib/stdlib.c:159-178 | finds a match exactly when there is one |
| Print.FormatInteger | pintos/src/lib/stdio.c:456-528 | the field of the number, without leaving the buffer of 64 characters |
| Print.FieldWidth | pintos/src/lib/stdio.c:507-528 | a field is as wide as asked, or as it needs to be, exactly when it is not padded twice |
| Print.Atoi | pintos/src/lib/stdlib.c:9-38 | the value of the numeral, with no overflow on the way where the value fits |
| Print.PrintThenRead | pintos/src/lib/stdlib.c:9-38 | printing an int with %d and reading it with atoi gives it back |
| Rendering.FieldReads | pintos/src/lib/stdio.c:456-528 | what any integer conversion prints, in every base and with any flags, width and precision, reads back as the sign and the number |
| Rendering.FieldSides | pintos/src/lib/stdio.c:507-528 | spaces go in front, with the minus flag behind, and with the zero flag zeros between sign or prefix and digits |
| Rendering.SignShown | pintos/src/lib/stdio.c:466-478 | which sign is printed: the plus sign before the space, none for unsigned |
| Rendering.AtoiExact | pintos/src/lib/stdlib.c:9-38 | any number reads as itself behind white space, a sign and zeros, up to what is not a digit |
| Rendering.RenderParses | pintos/src/lib/stdio.c:343-409 | every conversion written out as flags, width and precision parses back, whatever follows it |
| Parse.ParseConversion | pintos/src/lib/stdio.c:343-409 | flags, width and precision of a conversion, and where the text goes on |
| Parse.PadsTwice | pintos/src/lib/stdio.c:371-409 | exactly which conversions ask for both kinds of padding, by their text and arguments |
| Parse.BothFlags | pintos/src/lib/stdio.c:371-409 | `0*d` with the argument -5 asks for both |
| Parse.PaddedTwice | pintos/src/lib/stdio.c:507-528 | such a conversion of 7 to width 5 prints nine characters |
| Ustar.RoundTrip | pintos/src/lib/ustar.c:73-198 | every header that is made is accepted and gives back name, type and size, except for a regular file of negative size |
| Ustar.OctalExact | pintos/src/lib/ustar.c:116-140 | a field is accepted exactly when it is digits and a terminator and its value fits |
| Ustar.AcceptedIsSound | pintos/src/lib/ustar.c:157-198 | whatever is accepted has a name of at most 99 characters with nothing to strip, one of the two types, a size that is an int, and the right checksum |
| Ustar.ParseExact | pintos/src/lib/ustar.c:157-198 | a block of zeros and nothing else ends the archive; a header is accepted exactly when magic, version, checksum, name, type and size are right, and gives back what it says |
| Ustar.ErrorIsWrong | pintos/src/lib/ustar.c:173-190 | whatever error is reported is there |
| Ustar.SumAsSpaces | pintos/src/lib/ustar.c:34-50 | the checksum is the sum of all bytes with spaces for its own field |
| Ustar.MadeFields | pintos/src/lib/ustar.c:87-103 | the other fields of a header: mode by type, no user and group, the fixed time, and root |
| Ustar.StripIdempotent | pintos/src/lib/ustar.c:60-64 | stripping once is enough and leaves a name that is not empty, not `..`, and has none of the prefixes in front |
| Destination.UnprefixedParts | pintos/src/lib/ustar.c:60-63 | the loop drops the components in front that are empty, `.` or `..`, but for the last one |
| Destination.StrippedInside | pintos/src/lib/ustar.c:51-64 | a stripped name leads inside every destination directory exactly when, of the components behind that front, none goes up once more than there are names before it, or `..` is all that is left, which is replaced |
| Destination.LeavesDestination | pintos/src/lib/ustar.c:60-64 | `a/../../x` is left as it is and leads out of the destination |
| Ustar.MakeHeader | pintos/src/lib/ustar.c:73-105 | the 512 bytes of the header; only too long a name makes it fail |
| Ustar.ParseHeader | pintos/src/lib/ustar.c:157-198 | what the parser makes of any 512 bytes, or the error it reports |
| Args.WordsExact | pintos/src/lib/string.c:211-246 | the words of a line are the only sequence of words, none empty or with a space, that it spells with spaces between them |
| Args.ProgramFindsArgs | pintos/src/userprog/process.c:32-74 | a program that starts on the stack finds its words through argc and argv, with a null pointer behind them |
| Args.StringsApart | pintos/src/userprog/process.c:43-50 | no two of the strings share a byte |
| Args.Stack.PushArgs | pintos/src/userprog/process.c:32-74 | the bytes on the stack, in place, and nothing else of memory changes |
| Args.Strtok | pintos/src/lib/string.c:211-246 | the next word, cut off in place, and where to go on |
| Division.UDiv64 | pintos/src/lib/arithmetic.c:67-111 | every quotient of 64-bit numbers, without a trap on the way |
| Division.SDiv64 | pintos/src/lib/arithmetic.c:119-124 | the quotient truncated toward zero, except for the most negative number by -1 |
| Division.UMod64 | pintos/src/lib/arithmetic.c:115-115 | the low 32 bits of the remainder, which are the remainder exactly when it fits, and so whenever the divisor is at most 2^32 or the dividend has 32 bits |
| Division.UModTooWide | pintos/src/lib/arithmetic.c:115-115 | 2^32 modulo 2^32 + 1 comes out as 0 |
| Division.Nlz | pintos/src/lib/arithmetic.c:37-63 | the number of leading zeros |

## Left out

- Chains.NoPriorityInversion: inversions by resources other than locks are not covered, since only
  locks donate.
- Chains.GaveTendedExact: reading the holder of a lock and passing it to `thread_donate_priority` is
  one step, and so for `Chains.GaveBackedExact` and `Chains.GaveExact`.
- Chains.StepExact: reading the own priority together with testing or storing that of a lock is one
  step, and so is reading a holder and the lock that it waits for.
- Donation.DonateRestores: nothing is said about inversions where another donor has stored a priority
  and not yet given it; `Chains.NoPriorityInversion` covers those.
- FairScheduler.EveryRunIsBounded: for more than 163 ready threads a sample nothing is claimed.
- FileSystemRuns.EveryRunIsSafe: the contents of the free map file and of the directory file are kept
  as values, and reads and writes of them succeed or fail as the action says.
- FairScheduler.Clock.TimerInterrupt: a fixed set of threads; `thread_tick` and the waking of sleepers
  are left out.
- Palloc.Pool.GetMultiple: one pool, without the flags and the zeroing of pages.
- Palloc.Pool.FreeMultiple: one pool, without the filling of freed pages.
- Directory.Dir.ReadDir: a directory that does not change meanwhile, whose reads do not fail.
- Args.Strtok: a space is the only delimiter, which is what `args_push_stack` asks for.
- Parse.ParseConversion: a width or precision of more digits than an `int` can hold, and the length modifiers.
- Print.Atoi: numerals outside the range of an `int`, for which the C code overflows.
- Args.Stack.PushArgs: at most fifty words that fit the page, which the original does not check.
- `lock_try_acquire`, condition variables other than those of the read-write lock, `thread_exit` and
  the reaping of threads, the policies other than priority and fair.
- `realloc`, `calloc`, the second page pool and the zeroing of pages.
- The buffer cache and subdirectories, which this source does not have; `file_seek` and positions.
- `smod64`, `format_string`, `hex_dump`, and the parts of `lib/string.c` that nothing here uses.
- Page tables, loading of executables, system calls and devices.
