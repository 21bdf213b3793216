# Weenix memory, scheduling and naming: a verified model

This project models, in Dafny, the hard core of a Weenix teaching kernel and of
two user-level programs beside it, and proves what they are for.

**Copy-on-write memory.** Memory objects (anonymous, file, shadow) with their
reference counts, resident pages and shadow chains (`MemObjects`, `ObjectRefs`,
`ObjectPages`), the shadow daemon's collapse (`ShadowCollapse`), area lists as
partial functions (`Vmmap`), the two-level page table (`PageTable`), and the
system of processes over them (`VirtualMemory`, `VmSteps`, `VmMapping`,
`VmFork`, `VmProcs`, `VmRuns`). The main results are about every run of stores,
faults, maps, unmaps, forks, exits and collapses: `VmRuns.RunInv`,
`VmRuns.ForkIsolation` and `VmRuns.AnonymousMemory`; `VmEffects` says exactly
what each step does to every page and every page-table entry. The code that works in
place is a set of classes and methods proved equal to those steps:
`ObjectTable`, `ShadowDaemon`, `AddressSpace`, `ProcessVm`, `ProcessFork`.
`PframeIndex` is the hash index of resident pages.

**Page and slab allocators.** Blocks and their arithmetic (`BuddyBlocks`,
`FreeLists`), the buddy invariant and the canonical form of its free blocks
(`Buddy`), the allocator over several page groups (`PageGroup`,
`PageAllocator`), and slabs on top of it (`SlabSizes`, `SlabChains`,
`SlabState`, `SlabCache`).

**Scheduler and mutexes.** Threads, queues and mutexes as a step system
(`Sched`, `SchedRuns`), what holds in every run of it (`SchedOrder`,
`SchedCalls`, `MutexRuns`, `ThreadExit`), and the kernel's calls as methods (`Scheduler`).

**Token bucket.** The emulator's critical sections as steps (`TokenBucket`) and
as methods on the shared state (`Emulator`).

**List and sort.** The circular doubly-linked list on the heap
(`CircularList`) and the bubble sort that unlinks and re-inserts its cells
(`BubbleSort`).

**ramfs.** Inodes, names and in-core vnodes (`Ramfs`, `RamfsRuns`), what each
operation does to every name and every inode (`RamfsNames`), and the operations
as methods (`RamfsDisk`).

A pattern runs through all of it: the specification is a set of pure functions
on a state value, the properties are lemmas about those functions and about
runs of them, and each method that changes state ensures that the new state is
the function of the old one.

Some of what the code or its comments promise is not so. Each such case has the
exact condition under which the promise holds, and a concrete case in which it
does not; `VmExamples`, `InterruptedRun` and `RemovedDirectory` are whole runs.

- `anon_put` does not free an object that has no resident page
  (`ObjectRefs.PutFreesExactly`, `VmExamples.ObjectLost`).
- The daemon's assertion that an object has two parents can fail
  (`ShadowAssertion.AssertedExactly`, `VmExamples.AssertionFails`).
- `pt_unmap_range` clears more than its range, namely a whole table, when both
  ends lie in that table and the range does not start at its first page
  (`PageTable.PageDir.UnmapRange`, `PageTable.Overclears`).
- `page_alloc_n` reads its count as a signed number
  (`PageAllocator.OrderSuffices`, `PageAllocator.HugeCount`).
- `sortList` accepts a record from the future if it is the last one given
  (`BubbleSort.SortList`, `BubbleSort.LastUnchecked`).
- A token can be dropped beside a waiting packet, and the bucket can overflow
  (`TokenBucket.InVainExactly`, `TokenBucket.OverExactly`,
  `TokenBucket.NoNeedCounterexample`).
- A cancellable lock call can report an interruption to a caller that holds the
  mutex (`MutexRuns.InterruptedExactly`, `InterruptedRun.InterruptedHolder`).
- A removed directory can still be added to, and what it names is lost when its
  last reference is dropped (`RamfsRuns.RunExactly`,
  `RemovedDirectory.InodeLost`).
- The parent entry of a removed directory can stand for an inode that is gone
  (`RamfsRuns.TargetKnown`, `RemovedDirectory.ParentGone`).
- The search for a free range returns -1 on an empty map, panics when nothing
  fits and an area starts below page `npages`, and returns a range that does
  not fit when its 32-bit sum wraps (`AddressSpace.Space.FindRange` has the
  three conditions; `FreeRangeCases.Unfound`, `FreeRangeCases.Panics` and
  `FreeRangeCases.Wraps` have a case of each).

`dafny verify dfyconfig.toml` checks the whole project.

## Model

| member | source | states |
|---|---|---|
| `MemObjects.PutKeepsInv` | kernel/proc/vm/shadow.c:113-163 | Dropping one counted reference, with the whole cascade down the chain, keeps reference conservation: every remaining count is resident pages + shadow objects directly above + references held by areas and the file system. |
| `MemObjects.PutKeepsMeaning` | kernel/proc/vm/shadow.c:113-163 | Every object that survives a put shows the same page contents in the same frames as before. |
| `MemObjects.DiscardShadow` | kernel/proc/vm/shadow.c:124-160 | A shadow object whose count is down to its resident pages plus one can go with all its frames; the reference it held on the object below becomes the one still to be dropped. |
| `MemObjects.DiscardAnon` | kernel/proc/vm/anon.c:110-139 | The same for an anonymous object, which holds no further reference. |
| `MemObjects.BottomIsEnd` | kernel/proc/vm/shadow.c:177-224 | Every shadow chain ends at an existing object that shadows nothing. |
| `ObjectRefs.PutFreesExactly` | kernel/proc/vm/anon.c:102-142 | put and its cascade free an object exactly when neither an area, the file system nor a surviving shadow object refers to it, except for file objects and anonymous objects without a resident page. |
| `ObjectRefs.AnonLeak` | kernel/proc/vm/anon.c:110-138 | A new anonymous object whose last reference is dropped before a page of it becomes resident stays behind with count zero. |
| `VmExamples.ObjectLost` | kernel/proc/vm/anon.c:110-138 | A run from the initial state (map a shared page, unmap it untouched) after which such an object is left to which nothing refers. |
| `ObjectRefs.NewAnonInv` | kernel/proc/vm/anon.c:58-72 | A new anonymous object, with one reference held by the caller, keeps reference conservation. |
| `ObjectRefs.NewShadowInv` | kernel/proc/vm/shadow.c:71-83 | A new shadow object takes over one reference to the object below; the caller then holds one to the new object, and every bottom pointer is still the end of its chain. |
| `ObjectRefs.NewShadowMeaning` | kernel/proc/fork.c:113-123 | A new shadow object shows exactly the pages that the object below it shows. |
| `ObjectRefs.PutAllInv` | kernel/proc/vm/vmmap.c:135-173 | Dropping a whole bag of held references one after the other keeps reference conservation for the rest. |
| `ObjectPages.LookupCorrect` | kernel/proc/vm/shadow.c:177-224 | A read lookup succeeds exactly when the page exists, returns the frame that is first on the chain and holds what the object shows, and changes no page of any object. |
| `ObjectPages.FindIsView` | kernel/proc/vm/shadow.c:177-224 | The frame found first on a chain holds the contents shown through the object; without one the contents are what the bottom object fills in. |
| `ObjectPages.WriteLookupOwns` | kernel/proc/vm/shadow.c:237-266 | A write lookup at a shadow object succeeds exactly when the page exists; the object then owns a frame that holds a copy of what it showed. |
| `ObjectPages.WriteLookupKeepsAt` | kernel/proc/vm/shadow.c:237-266 | Copy on write at a top object changes no other page of it and no page of any other object. |
| `ObjectPages.WriteLookupInv` | kernel/mm/pframe.c:228-258 | Lookup, allocation, fill and the give-back of a failed fill keep reference conservation and the uniqueness of frames. |
| `ObjectPages.AllocFrameInv` | kernel/mm/pframe.c:228-258 | A new frame as a page that the object lacks, with the reference it holds, keeps reference conservation and the uniqueness of frames. |
| `ObjectPages.FailRestores` | kernel/mm/pframe.c:371-388 | When there is nothing to copy, the freshly allocated frame is given back and the store is as it was. |
| `ShadowCollapse.MergeInv` | kernel/proc/vm/shadowd.c:76-93 | Absorbing a shadow object with a single parent keeps counts, chains and cached bottom pointers right. |
| `ShadowCollapse.MergeMeaning` | kernel/proc/vm/shadowd.c:76-93 | Absorbing it changes no page seen through any remaining object; where both objects have a page, the upper one wins. |
| `ShadowCollapse.WalkCorrect` | kernel/proc/vm/shadowd.c:67-103 | A whole collapse walk keeps the store consistent, keeps every root, and every surviving object shows the same pages in the same frames. |
| `ShadowCollapse.WalkComplete` | kernel/proc/vm/shadowd.c:67-103 | After a walk no shadow object below the top has a single parent. |
| `ShadowCollapse.WalkSingle` | kernel/proc/vm/shadowd.c:76 | The test on the counts is true exactly when nothing but the object above refers to the object. |
| `ShadowAssertion.AssertedExactly` | kernel/proc/vm/shadowd.c:94-95 | The assertion that an object not absorbed has exactly two parents holds throughout a walk if and only if no shadow object below the top had more than two parents before it. |
| `VmExamples.AssertionFails` | kernel/proc/vm/shadowd.c:94-95 | A run from the initial state (map three private pages, unmap the middle one, fork) after which the assertion fails. |
| `ObjectTable.Table.FreeFrame` | kernel/mm/pframe.c:562-595 | The page leaves its object, its frame goes and its reference is dropped, without freeing the object. |
| `ObjectTable.Table.FreeAllFrames` | kernel/proc/vm/shadow.c:128-150 | The page loop empties the object, one reference dropped for each page. |
| `ObjectTable.Table.Put` | kernel/proc/vm/shadow.c:113-163 | The recursive release with its page loops equals the store function Put, so it terminates and has the properties proved of Put. |
| `ObjectTable.Table.GetBottom` | kernel/proc/vm/anon.c:150-187 | The lookup in a bottom object: the resident frame; else a new frame of zeroes for an anonymous object, and for a file the page on disk, or none when the file has no such page. |
| `ObjectTable.Table.LookupPage` | kernel/proc/vm/shadow.c:177-224 | The loop down the chain equals the store function Lookup. |
| `ObjectTable.Table.GetPageForWrite` | kernel/proc/vm/shadow.c:237-266 | The copy up from the chain below equals the store function GetForWrite, also when there is nothing to copy. |
| `ShadowDaemon.Migrate` | kernel/mm/pframe.c:277-298 | The frame and its reference move to the upper object, or go when the upper object has the page. |
| `ShadowDaemon.MigrateAll` | kernel/proc/vm/shadowd.c:78-87 | The page loop leaves the lower object empty and the upper one with every page, its own ones first. |
| `ShadowDaemon.Unlink` | kernel/proc/vm/shadowd.c:88-93 | The emptied object is unlinked and freed, and the object below it keeps its count. |
| `ShadowDaemon.Absorb` | kernel/proc/vm/shadowd.c:76-93 | Together these are the merge of the two objects, with the reference that the walk itself holds. |
| `ShadowDaemon.Advance` | kernel/proc/vm/shadowd.c:94-98 | The walk moves its own reference one object down and changes nothing else. |
| `ShadowDaemon.CollapseChain` | kernel/proc/vm/shadowd.c:67-103 | The daemon's loop on one area equals the walk: counts and chains stay right, no page seen by anyone changes, and no object with a single parent is left below the top. |
| `ShadowDaemon.RefPut` | kernel/proc/vm/shadowd.c:71-103 | Dropping the reference that the walk has just taken restores the store. |
| `Vmmap.LookupIsAt` | kernel/proc/vm/vmmap.c:299-323 | Lookup agrees with the partial function from pages to object pages that the area list denotes. |
| `Vmmap.RangeEmptyIsAt` | kernel/proc/vm/vmmap.c:662-700 | A range is reported empty exactly when the function is undefined on all of it. |
| `Vmmap.InsertSorted` | kernel/proc/vm/vmmap.c:179-235 | Inserting into an empty range keeps the list sorted and disjoint and adds just that area. |
| `Vmmap.InsertAt` | kernel/proc/vm/vmmap.c:179-235 | Inserting overrides the function on the new range and nowhere else. |
| `Vmmap.RemoveSorted` | kernel/proc/vm/vmmap.c:560-656 | What is left after a removal is sorted, disjoint and inside the bounds. |
| `Vmmap.RemoveAt` | kernel/proc/vm/vmmap.c:560-656 | Removal is exact domain subtraction, in all four overlap cases, with object offsets kept right. |
| `Vmmap.RemoveObjs` | kernel/proc/vm/vmmap.c:598-642 | The references that removal takes and drops are exactly the change in the references the areas hold. |
| `Vmmap.SplitDropsNone` | kernel/proc/vm/vmmap.c:587-617 | A removal that splits an area drops no reference and takes one. |
| `AddressSpace.Space.Insert` | kernel/proc/vm/vmmap.c:179-235 | The loop puts the area at its place in the order. |
| `AddressSpace.Space.Lookup` | kernel/proc/vm/vmmap.c:299-323 | The loop finds the first area that covers the page, if there is one. |
| `AddressSpace.Space.IsRangeEmpty` | kernel/proc/vm/vmmap.c:662-700 | The loop decides whether any area meets the range. |
| `AddressSpace.Space.Cut` | kernel/proc/vm/vmmap.c:580-650 | One area is split, cut at one end or removed, with its reference taken, kept or dropped to match. |
| `AddressSpace.Space.Remove` | kernel/proc/vm/vmmap.c:560-656 | The loop over the areas leaves exactly the subtraction of the range and the matching references. |
| `AddressSpace.Space.FindRange` | kernel/proc/vm/vmmap.c:244-294 | In 32-bit arithmetic: unless the first sum wraps, a start is returned exactly when a range fits and the map is not empty, and it is the highest; otherwise the search panics exactly when some area starts below page n. If the sum wraps, the start returned does not fit. |
| `FreeRangeCases.Search` | kernel/proc/vm/vmmap.c:244-294 | Between the user bounds 0x400 and 0xc0000, on any list of areas: none is found on an empty one; without a wrap the search panics exactly when nothing fits and an area starts below page n; with a wrap it returns a start that does not fit. |
| `FreeRangeCases.Unfound` | kernel/proc/vm/vmmap.c:244-294 | On an empty map the search finds nothing, although the last page fits. |
| `FreeRangeCases.Panics` | kernel/proc/vm/vmmap.c:244-294 | With one area at the low bound, the search for 0xc0000 pages, which is a request of do_mmap for 0xc0000000 bytes, panics; no range fits. |
| `FreeRangeCases.Wraps` | kernel/proc/vm/vmmap.c:244-294 | With the same area, the search for 0xfffffc00 pages returns a start that does not fit. |
| `AddressSpace.WrapNeverFits` | kernel/proc/vm/vmmap.c:263-271 | When the first sum wraps around, the start computed from the top of user memory never fits. |
| `PageTable.PageDir.Map` | kernel/mm/pagetable.c:107-137 | After success the page has exactly the given frame and permission and no other page's entry changes, as an update of the map of entries; it fails exactly when a table is needed and cannot be had. |
| `PageTable.PageDir.Unmap` | kernel/mm/pagetable.c:139-153 | Exactly that page's entry goes. |
| `PageTable.PageDir.UnmapRange` | kernel/mm/pagetable.c:155-188 | No entry of the range is left; the entries lost besides are exactly those of a table that both ends share, when the range does not start at its first page. |
| `PageTable.PageDir.PermissionIsEntry` | kernel/mm/pagetable.c:107-137 | A write is allowed through the directory exactly when the table entry allows it. |
| `PageTable.Flush` | kernel/mm/pagetable.c:155-188 | The same on a table given as a map, to which the two-level table is proved equal: nothing of the range is left, and more is lost only in a table that both ends share, when the range does not start at its first page. |
| `PageTable.Overclears` | kernel/mm/pagetable.c:163-178 | Unmapping page 1 alone also loses the entry of page 0. |
| `VmSteps.LoadIsValue` | kernel/proc/vm/pagefault.c:144-174 | What the hardware reads through a page-table entry is the page's contents as found through the areas and the chain. |
| `VmSteps.StoreInv` | kernel/proc/vm/pagefault.c:144-174 | A store through an entry keeps the invariant of the system. |
| `VmSteps.PrivateStoreCells` | kernel/proc/vm/pagefault.c:151-174 | A store to a private page changes that page of that process, and no page of any process besides. |
| `VmSteps.StoreBottoms` | kernel/proc/vm/pagefault.c:151-174 | A store changes a page of a bottom object only through a shared mapping of that page. |
| `VmSteps.FaultInv` | kernel/proc/vm/pagefault.c:62-174 | A page fault, resolved or not, keeps page-table coherence, reference conservation and the shape of the chains. |
| `VmSteps.FaultCells` | kernel/proc/vm/pagefault.c:62-174 | A page fault changes at most the faulting page, from the shared contents to the process's own copy of them. |
| `VmSteps.FaultBottoms` | kernel/proc/vm/pagefault.c:62-174 | A page fault changes the contents of no page of a file or anonymous object. |
| `VmSteps.FaultResumes` | kernel/proc/vm/pagefault.c:62-174 | A fault is resumed exactly when the page is inside the user bounds, is mapped readable, and writable for a write, and has contents; otherwise the process is killed. |
| `VmSteps.FaultEntries` | kernel/proc/vm/pagefault.c:144-174 | A resumed fault leaves an entry for the page with the access asked for, through which its contents are read as before; a killed one leaves no new entry; every other entry and every area of every process is as before. |
| `VmEffects.StepRights` | kernel/proc/vm/vmmap.c:365-519 | What each of the seven steps does to the protection and sharing of every page of every process: a map sets those of its range, an unmap and an exit clear theirs, a child has its parent's, and nothing else changes any. |
| `VmEffects.ForkRights` | kernel/proc/fork.c:77-142 | Parent and child have the protections that the parent had, and every other process its own. |
| `VmEffects.MapContents` | kernel/proc/vm/vmmap.c:470-519 | A new mapping without a file shows zeroes in every page; one of a file shows, at page u, the file's page u - lo + off: the resident page if there is one, else the page on disk if there is one. |
| `VmEffects.StepCells` | kernel/proc/vm/pagefault.c:62-174 | What each of the seven steps does to where every page of every process gets its contents from. |
| `VmEffects.StepEntries` | kernel/proc/vm/pagefault.c:144-174 | Only a resumed fault makes a page-table entry; a map and an unmap lose exactly the entries that the range flush clears, fork the parent's, exit the process's, and no other entry of any process changes. |
| `VmEffects.CollapseComplete` | kernel/proc/vm/shadowd.c:66-104 | After a collapse no object below the area's own has a single parent. |
| `VmEffects.StepBounds` | kernel/proc/fork.c:77-142 | No step changes the user bounds or the references of the file system, and only fork makes a process. |
| `VmMapping.UnmapInv` | kernel/proc/vm/mmap.c:179-248 | An unmap, with its page-table flush, keeps the invariant of the system. |
| `VmMapping.UnmapCells` | kernel/proc/vm/mmap.c:179-248 | An unmap removes the pages of the range and changes no other page of any process. |
| `VmMapping.MapIntoInv` | kernel/proc/vm/mmap.c:133-163 | A new mapping keeps the invariant of the system. |
| `VmMapping.MapIntoCells` | kernel/proc/vm/vmmap.c:470-519 | A new mapping shows the pages of the file or of a new zero-filled object, and changes no other page of any process. |
| `VmMapping.BackOk` | kernel/proc/vm/vmmap.c:445-468 | The object under a new mapping is referenced once, is a new shadow object exactly when the mapping is private, and shows the base object's pages. |
| `VmFork.ForkLoopInv` | kernel/proc/fork.c:95-128 | The loop of fork trades the references of parent and child to each private object for one to each of the two new shadow objects. |
| `VmFork.ForkCells` | kernel/proc/fork.c:103-125 | Through the new objects parent and child see every page as the parent saw it. |
| `VmProcs.ForkInv` | kernel/proc/fork.c:95-133 | fork keeps the invariant of the system. |
| `VmProcs.ForkPages` | kernel/proc/fork.c:95-133 | Right after fork the child sees each page as the parent saw it; so does the parent, and every other process sees what it saw. |
| `VmProcs.ExitInv` | kernel/proc/vm/vmmap.c:135-173 | Dropping a whole address space keeps the invariant of the system. |
| `VmProcs.ExitCells` | kernel/proc/vm/vmmap.c:135-173 | Dropping it changes no page of another process. |
| `VmProcs.CollapseInv` | kernel/proc/vm/shadowd.c:66-104 | A collapse below any area keeps the invariant, so page-table entries stay right without a flush. |
| `VmProcs.CollapseCells` | kernel/proc/vm/shadowd.c:66-104 | A collapse changes no page of any process. |
| `VmRuns.StepInv` | kernel/proc/vm/pagefault.c:62-174 | Every step (store, fault, map, unmap, fork, exit, collapse) keeps the invariant of the system. |
| `VmRuns.RunInv` | kernel/proc/fork.c:95-133 | In every run counts are conserved, chains are finite with right bottom pointers, areas are sorted and disjoint, and every page-table entry names the frame its chain finds and is writable only if the area allows it and its top object owns the frame. |
| `VmRuns.InitialInv` | kernel/proc/vm/vmmap.c:110-130 | A system with empty address spaces satisfies the invariant. |
| `VmRuns.StepCell` | kernel/proc/vm/shadow.c:177-266 | A step by anyone leaves a private page alone, unless the page's own process stores to it or takes a private copy of it. |
| `VmRuns.StepValue` | kernel/proc/vm/shadow.c:177-266 | The contents of a private page change only by its own process's store. |
| `VmRuns.PrivateMemory` | kernel/proc/vm/shadow.c:177-266 | Over a whole run a private page holds its first contents overridden only by its own process's stores. |
| `VmRuns.ForkIsolation` | kernel/proc/fork.c:95-133 | After a fork and any later run, parent and child each see the parent's private memory as it was at the fork, overridden only by their own stores. |
| `VmRuns.ForkIsolationLoads` | kernel/proc/fork.c:95-133 | The same for what the hardware loads at the end of the run. |
| `VmRuns.AnonymousMemory` | kernel/proc/vm/anon.c:150-187 | Anonymous private memory is an independent array of pages for each process in every run, with no condition on the other processes. |
| `ProcessVm.PagesOf` | kernel/proc/vm/mmap.c:121-131 | The page-count loop rounds up. |
| `ProcessVm.Munmap` | kernel/proc/vm/mmap.c:179-248 | do_munmap rejects exactly the arguments its checks name, the end taken modulo 2 to the 32; panics exactly when what passes leaves user memory; and otherwise unmaps exactly the pages touched, as the unmap step of a run. |
| `ProcessVm.PlaceAnywhere` | kernel/proc/vm/vmmap.c:419-428 | With no page given, the highest free range is taken, and the call fails or panics exactly as the search does. |
| `ProcessVm.Map` | kernel/proc/vm/mmap.c:133-163 | vmmap_map with the flush of do_mmap is the map step of a run, at the page given or at the highest free range; on failure nothing has changed. |
| `ProcessFork.HandleFault` | kernel/proc/vm/pagefault.c:62-174 | The handler kills the process exactly when the access is not allowed or the page has no contents; otherwise the page has an entry with the access asked for that shows its contents; every other entry is as before; and what it does is the fault step. |
| `ProcessFork.Destroy` | kernel/proc/vm/vmmap.c:135-173 | The loop over the areas is the exit step. |
| `ProcessFork.Clone` | kernel/proc/vm/vmmap.c:329-367 | The child gets the same areas with a reference of its own to each object, and an empty page table. |
| `ProcessFork.ForkAreas` | kernel/proc/fork.c:103-125 | The loop over the parent's areas equals the pure fork loop on both area lists and the store. |
| `ProcessFork.Fork` | kernel/proc/fork.c:95-133 | Clone, loop and flush together are the fork step for parent and child. |
| `ProcessFork.FlushAll` | kernel/proc/fork.c:131-133 | Flushing the user range empties the page table of a process. |
| `PframeIndex.ChainIsList` | kernel/mm/pframe.c:191-213 | Searching the hash chain gives the same answer as searching the object's own list: the page's one frame, or none exactly when the page is not resident. |
| `PframeIndex.AddedOk` | kernel/mm/pframe.c:228-258 | Entering a frame for a page that is not resident keeps the index right. |
| `PframeIndex.AddedEnters` | kernel/mm/pframe.c:242-255 | The page is resident in the new frame, which is last on the allocation list; its object and the list count one more; every other frame holds the page it held. |
| `PframeIndex.DroppedOk` | kernel/mm/pframe.c:562-595 | Freeing a frame keeps the index. |
| `PframeIndex.DroppedLeaves` | kernel/mm/pframe.c:562-595 | The frame is gone, its object and the allocation list count one less, and every other frame holds the page it held. |
| `PframeIndex.MovedOk` | kernel/mm/pframe.c:277-298 | Moving a frame to an object that lacks the page keeps the index. |
| `PframeIndex.MovedChanges` | kernel/mm/pframe.c:277-298 | The frame holds the same page of the destination; the counts of the two objects move by one; every other frame holds the page it held. |
| `PframeIndex.TouchedOk` | kernel/mm/pframe.c:191-213 | The reordering of the allocation list by a lookup keeps the index. |
| `PframeIndex.Pframes.AddObject` | kernel/proc/vm/anon.c:58-72 | A new object has an empty list and the index stays right. |
| `PframeIndex.Pframes.GetResident` | kernel/mm/pframe.c:191-213 | The hash lookup returns the page's frame, or none exactly when it is not resident, and changes nothing but that the frame becomes the last on the allocation list. |
| `PframeIndex.Pframes.Alloc` | kernel/mm/pframe.c:228-258 | The page becomes resident in the new frame and is counted, every other residency is as before, and the index stays right. |
| `PframeIndex.Pframes.Free` | kernel/mm/pframe.c:562-595 | The frame is gone and no longer counted, every other residency is as before, and the index stays right. |
| `PframeIndex.Pframes.Migrate` | kernel/mm/pframe.c:277-298 | The frame comes to hold the page of the destination, or is freed when the destination has that page; every other residency is as before and the index stays right. |
| `Buddy.FreeIsCanonical` | kernel/mm/page.c:163-340 | A block is free exactly when it is a maximal aligned run of pages none of which is allocated. |
| `Buddy.SameLiveSameFree` | kernel/mm/page.c:163-340 | Two states with the same allocated blocks have the same free blocks, whatever calls led there. |
| `Buddy.AllFree` | kernel/mm/page.c:92-99 | With nothing allocated the free blocks are exactly those of the largest order. |
| `Buddy.UnusedIsFree` | kernel/mm/page.c:163-340 | An aligned run of pages none of which is allocated lies inside one free block. |
| `Buddy.CanAllocate` | kernel/mm/page.c:246-281 | Some list of the order asked for or above has a block exactly when some aligned run of that size is unallocated. |
| `Buddy.TakeInv` | kernel/mm/page.c:246-281 | Handing out the head block keeps the tiling and the bits, and removes the one pair of free buddies a split can leave. |
| `Buddy.GiveInv` | kernel/mm/page.c:314-340 | Taking a block back keeps the tiling and the bits; only it and its buddy can now both be free. |
| `Buddy.SplitInv` | kernel/mm/page.c:163-186 | A split keeps the tiling and the bits: the bit of the block's own pair flips and that of the new pair is clear. |
| `Buddy.ClearBit` | kernel/mm/page.c:283-305 | Beside a free block, the bit of the pair is clear exactly when the buddy is free too. |
| `Buddy.JoinInv` | kernel/mm/page.c:283-305 | A join keeps the tiling and the bits, and only the joined block and its buddy can now both be free. |
| `Buddy.JoinDone` | kernel/mm/page.c:283-305 | When the join loop stops, no two buddies are both free. |
| `FreeLists.BuddyAddr` | kernel/mm/page.c:283-305 | The address computed for the buddy is that of the sibling block. |
| `FreeLists.ParentAddr` | kernel/mm/page.c:283-305 | The lower of the two addresses is that of the joined block. |
| `FreeLists.PairIndex` | kernel/mm/page.c:151-161 | The index computed for a block one order up is that of its pair. |
| `FreeLists.OverlapIsSharing` | kernel/mm/page.c:163-305 | Two blocks, of whatever orders, overlap in the sense of the buddy system exactly when they share an address. |
| `PageGroup.Group.constructor` | kernel/mm/page.c:66-102 | A new group: nothing allocated, the pages that do not fill a largest block dropped, the rest free as largest blocks, every bit clear. |
| `PageGroup.RoundDown` | kernel/mm/page.c:72-90 | The loop leaves the largest multiple of the largest block size not above the page count. |
| `PageGroup.PairBit` | kernel/mm/page.c:283-305 | The bit at the index computed from an address is clear exactly when that block's buddy is free. |
| `PageGroup.Group.Split` | kernel/mm/page.c:163-186 | The head block becomes its two halves at the head of the list below; lists, bits and tiling stay right and no page is lost. |
| `PageGroup.Group.Alloc` | kernel/mm/page.c:189-281 | Splitting down and taking the head returns an aligned block of the order asked for, all of whose pages were unallocated. |
| `PageGroup.Group.JoinOnce` | kernel/mm/page.c:283-305 | The block and its buddy leave their list, where the buddy really is, for the list above. |
| `PageGroup.Group.Join` | kernel/mm/page.c:283-305 | The join loop restores the invariant (no two free buddies) without losing a page. |
| `PageGroup.Group.Release` | kernel/mm/page.c:314-340 | The block is allocated no more, and the group is again in order. |
| `PageAllocator.Pages.AddRange` | kernel/mm/page.c:122-136 | A range of memory becomes a group after room for its own record and bitmaps has been cut off; the free count rises by the pages added. |
| `PageAllocator.Pages.AllocOrder` | kernel/mm/page.c:246-281 | Allocation fails exactly when no group has an aligned run of 2^order unallocated pages; else it returns such a run, allocated by it alone, cut out of a smallest free block of any group that holds one, and lowers the free count by its size. |
| `PageAllocator.Pages.GroupOf` | kernel/mm/page.c:104-113 | The group found is the one that holds the address. |
| `PageAllocator.Pages.FreeOrder` | kernel/mm/page.c:314-340 | Exactly that block goes back to its group and the free count rises by its size; an address of no group changes nothing. |
| `PageAllocator.Pages.AllocPages` | kernel/mm/page.c:370-384 | The order is the smallest that suffices for the count read as a signed int; a panic exactly when there is none; the block is cut out of a smallest free one that holds it. |
| `PageAllocator.Pages.FreePages` | kernel/mm/page.c:390-403 | Freeing with the count of the allocation takes exactly that block back. |
| `PageAllocator.OrderSuffices` | kernel/mm/page.c:370-384 | The block handed out has as many pages as asked for if and only if the count is below 2^31; a larger count yields a single page. |
| `PageAllocator.HugeCount` | kernel/mm/page.c:370-384 | A count of 2^32 - 1 pages is served by a single page. |
| `PageAllocator.AllocFree` | kernel/mm/page.c:246-340 | Allocating and then freeing leaves every group with the allocated blocks it had. |
| `PageAllocator.FreeCount` | kernel/mm/page.c:131-135 | In every state the free count is the pages managed less those of the allocated blocks; it exceeds the pages on the lists by the remainders dropped at creation. |
| `PageAllocator.AllReturned` | kernel/mm/page.c:66-99 | A group in which nothing is allocated has exactly the blocks it was created with. |
| `SlabSizes.SlabFits` | kernel/mm/slab.c:81-104 | The objects counted fit into the block together with the header, and one more would not. |
| `SlabSizes.CalcSlabSize` | kernel/mm/slab.c:106-147 | The order chosen wastes least among those from the smallest that holds an object up to the limit; a panic exactly when no order holds one. |
| `SlabChains.TakeSlab` | kernel/mm/slab.c:252-297 | Taking the first object of the chain keeps the chain repeat-free, and objects in use and chain length adding up. |
| `SlabChains.GiveSlab` | kernel/mm/slab.c:299-327 | Putting an allocated object at the front keeps the same. |
| `SlabChains.ChainIsFree` | kernel/mm/slab.c:252-327 | An object is on its slab's chain exactly when its control word is a link; otherwise that word names its slab. |
| `SlabState.ObjectsDisjoint` | kernel/mm/slab.c:191-249 | Any two objects are disjoint, and each lies in its slab's block below the header. |
| `SlabState.TakeOk` | kernel/mm/slab.c:252-297 | The object handed out was not allocated before, and it is the only one allocated in addition. |
| `SlabState.GiveOk` | kernel/mm/slab.c:299-327 | The control word of an allocated object names the slab it came from, and exactly that object is allocated no more. |
| `SlabState.GrowOk` | kernel/mm/slab.c:191-249 | A new slab brings only free objects and leaves the allocated ones alone. |
| `SlabState.DropOk` | kernel/mm/slab.c:336-368 | Giving up a slab with no object in use takes no allocated object away. |
| `SlabCache.Cache.Thread` | kernel/mm/slab.c:204-217 | The loop links every object of the block to the next, and the last to none. |
| `SlabCache.Cache.Grow` | kernel/mm/slab.c:191-249 | One block of pages that was not allocated, and so is no other cache's, becomes a slab of free objects at the head of the list; it fails exactly as the page allocator does, with nothing changed. |
| `SlabCache.Cache.Alloc` | kernel/mm/slab.c:252-297 | An object that was not allocated is returned, from a slab with one to spare without touching the pages, and only without such a slab from a new one; it fails only when every slab is full and no block of pages is to be had. |
| `SlabCache.Cache.Free` | kernel/mm/slab.c:299-327 | Exactly that object is allocated no more. |
| `SlabCache.Cache.Reclaim` | kernel/mm/slab.c:336-368 | Slabs with an object in use are kept, no allocated object is lost, the pages counted are the rise in the free count, and it stops with the slab that meets the target. |
| `SlabCache.ReclaimAll` | kernel/mm/slab.c:336-368 | Over all caches the return value is exactly the rise in the free count, no allocated object and no slab that holds one is lost, the caches still share no block, it stops with the slab that meets the target, and unless the target is met no empty slab is left. |
| `SlabCache.NewIsFresh` | kernel/mm/slab.c:191-249 | A block just handed out is apart from the blocks of all slabs. |
| `SlabCache.LiveApart` | kernel/mm/page.c:163-340 | Any two allocated blocks, whatever their sizes and groups, share no address. |
| `SlabCache.AllocApart` | kernel/mm/slab.c:191-297 | An allocation by one cache leaves every other cache in order and shares no block with it, so that reclaiming stays possible. |
| `SlabCache.CachesApart` | kernel/mm/slab.c:191-297 | Objects of two caches share no address. |
| `Sched.EnqueueOk` | kernel/proc/sched.c:32-39 | Enqueueing a thread that is on no queue keeps the queues: sizes right, no thread twice, each on the queue its wait channel names. |
| `Sched.DequeueOk` | kernel/proc/sched.c:47-64 | So does dequeueing, and the thread that leaves was on that queue. |
| `Sched.RemoveOk` | kernel/proc/sched.c:72-79 | So does removing a thread from the middle. |
| `SchedRuns.DispatchInv` | kernel/proc/sched.c:285-315 | After a switch the running thread is on no queue, and every other one is on the run queue exactly when runnable, on its one wait queue exactly when asleep, on none when new or exited. |
| `SchedRuns.CancelInv` | kernel/proc/sched.c:227-247 | Cancelling any other thread keeps this. |
| `SchedRuns.WakeupInv` | kernel/proc/sched.c:164-196 | Waking the oldest sleeper keeps this. |
| `SchedRuns.UnlockMutexes` | kernel/proc/kmutex.c:99-113 | Unlocking hands over without ever leaving waiters beside a free mutex. |
| `SchedRuns.CancelMutexes` | kernel/proc/sched.c:227-247 | Cancelling a waiter keeps the mutexes in order: it leaves the queue without the mutex. |
| `SchedOrder.StepGood` | kernel/proc/sched.c:102-247 | Each of the fourteen steps keeps the invariants of the scheduler and of all mutexes. |
| `SchedOrder.RunGood` | kernel/proc/sched.c:285-351 | In every run, under any schedule and any cancellations, no thread is lost, misplaced or twice on a queue, and every mutex is in order. |
| `SchedOrder.InitialGood` | kernel/proc/sched.c:16-20 | The state with one running thread and empty queues is in order. |
| `SchedOrder.DispatchedInTurn` | kernel/proc/sched.c:285-351 | A thread with k others before it on the run queue is the one that runs after the (k+1)-th switch, whatever happens in between. |
| `SchedOrder.JoinsLast` | kernel/proc/sched.c:330-351 | A thread that is started or cloned, or that yields, is put behind all that could run. |
| `SchedOrder.MutexProtocol` | kernel/proc/kmutex.c:32-113 | In every state a mutex has at most one holder, who does not wait for it, and nobody waits for a free mutex. |
| `SchedOrder.LockReturns` | kernel/proc/kmutex.c:32-83 | Every lock call that reports success, at once or after sleeping, returns with the caller as the holder. |
| `SchedOrder.HandOff` | kernel/proc/kmutex.c:99-113 | Unlocking makes the longest waiter the holder and puts it last on the run queue, or frees the mutex when nobody waits. |
| `SchedOrder.NoOvertaking` | kernel/proc/kmutex.c:32-113 | For as long as a thread waits, nobody who was not before it on the queue gets the mutex, through any steps and cancellations. |
| `SchedCalls.CallStays` | kernel/proc/sched.c:102-162 | A suspended call, of any kind, goes on through every step but the dispatch of its thread, and then returns what a cancelled or uncancelled thread gets. |
| `SchedCalls.CallReturns` | kernel/proc/sched.c:102-162 | What every suspended call returns over any run: plain or for a mutex, a cancellable one is interrupted exactly when its thread was cancelled before or on the way, and one that is not cancellable never is. |
| `SchedCalls.SleepReturns` | kernel/proc/sched.c:125-162 | A plain cancellable sleep comes back interrupted, with the thread marked as exited, exactly when its thread was cancelled, and as woken, with the thread running, exactly when it was not. |
| `SchedCalls.DeepSleepReturns` | kernel/proc/sched.c:102-115 | A plain sleep that is not cancellable always comes back as woken. |
| `SchedCalls.StepCancelled` | kernel/proc/sched.c:227-247 | Only a cancel marks a thread and no step takes the mark away; a cloned thread is marked as its maker is and a new one is not. |
| `MutexRuns.LeavesAsHolder` | kernel/proc/kmutex.c:99-113 | A waiter that is not cancelled leaves the queue of a mutex only as its holder, whatever step is taken. |
| `MutexRuns.AcquireInOrder` | kernel/proc/kmutex.c:32-113 | In every run, if u was not before t on the queue of a mutex and t is not cancelled, then u holds the mutex only after t has held it. |
| `MutexRuns.CancelDecides` | kernel/proc/sched.c:227-247 | After the cancel of a thread in a cancellable lock call, the thread waits no more, and it holds the mutex exactly if it was already off the queue. |
| `MutexRuns.HolderStable` | kernel/proc/kmutex.c:32-113 | While a thread is suspended in its lock call and off the queue, no step of anyone changes whether it holds the mutex. |
| `MutexRuns.ReturnsInterrupted` | kernel/proc/sched.c:125-162 | A suspended cancellable lock call reports an interruption exactly when its thread was cancelled on the way, and success otherwise. |
| `MutexRuns.InterruptedExactly` | kernel/proc/kmutex.c:56-83 | In every run, a cancellable lock call that had to wait and reports an interruption leaves its caller the holder if and only if the caller was off the queue, having been handed the mutex, when it was cancelled. |
| `MutexRuns.InterruptedAtOnce` | kernel/proc/kmutex.c:56-83 | A call that is interrupted without waiting leaves the mutex with its holder, who is not the caller. |
| `InterruptedRun.InterruptedHolder` | kernel/proc/kmutex.c:71-77 | A run of eleven steps from an initial state in which a cancellable lock call reports an interruption and its caller holds the mutex. |
| `Scheduler.Kernel.SleepOn` | kernel/proc/sched.c:102-115 | The call keeps the invariants of the scheduler and of the mutexes and is the step of the runs; the caller is the newest sleeper on the queue, in a sleep that is not cancellable. No other thread or queue changes. |
| `Scheduler.Kernel.CancellableSleepOn` | kernel/proc/sched.c:125-162 | The call keeps the invariants of the scheduler and of the mutexes and is the step of the runs; the caller is the newest sleeper, in a cancellable sleep, unless it had been cancelled, when it is told so, is marked as exited and the queue is as it was. No other thread or queue changes. |
| `Scheduler.Kernel.WakeupOn` | kernel/proc/sched.c:164-196 | The call keeps the invariants of the scheduler and of the mutexes and is the step of the runs; the oldest sleeper, if there is one, is returned, is last on the run queue, still in its call and as cancelled as it was, and the others keep their order. No other thread or queue changes. |
| `Scheduler.Kernel.BroadcastOn` | kernel/proc/sched.c:198-216 | The call keeps the invariants of the scheduler and of the mutexes and is the step of the runs; the loop leaves the queue empty and its sleepers on the run queue, behind those already there and in the order in which they fell asleep. No other thread or queue changes. |
| `Scheduler.Kernel.Cancel` | kernel/proc/sched.c:227-247 | The call keeps the invariants of the scheduler and of the mutexes and is the step of the runs; the thread is marked; if its sleep was cancellable it leaves its queue and is last on the run queue, otherwise all queues are as they were. No other thread or queue changes. |
| `Scheduler.Kernel.Switch` | kernel/proc/sched.c:285-315 | The call keeps the invariants of the scheduler and of the mutexes and is the step of the runs; the thread that runs was first in line; its call returns interrupted exactly if it is cancellable and the thread was cancelled; and if it comes out of a lock call that succeeded it holds the mutex. No other thread or queue changes. |
| `Scheduler.Kernel.Start` | kernel/proc/sched.c:330-351 | The call keeps the invariants of the scheduler and of the mutexes and is the step of the runs; the new thread is last on the run queue. No other thread or queue changes. |
| `Scheduler.Kernel.Create` | kernel/proc/kthread.c:87-114 | The call keeps the invariants of the scheduler and of the mutexes and is the step of the runs; the new thread is on no queue and not cancelled. No other thread or queue changes. |
| `Scheduler.Kernel.Exit` | kernel/proc/kthread.c:167-183 | The call keeps the invariants of the scheduler and of the mutexes and is the step of the runs; the thread has exited and is on no queue. No other thread or queue changes. |
| `ThreadExit.NeverRunsAgain` | kernel/proc/kthread.c:167-183 | After the running thread exits it runs in no state of any continuation, under any schedule, wakeups, broadcasts and cancellations. |
| `ThreadExit.StepGone` | kernel/proc/sched.c:102-351 | No step makes a thread that has exited and been switched away from run, or changes its state. |
| `Scheduler.Kernel.Lock` | kernel/proc/kmutex.c:32-50 | The call keeps the invariants of the scheduler and of the mutexes and is the step of the runs; the caller holds the mutex at once exactly if it was free, and is otherwise its newest waiter. No other thread, queue or mutex changes. |
| `Scheduler.Kernel.LockCancellable` | kernel/proc/kmutex.c:56-83 | The call keeps the invariants of the scheduler and of the mutexes and is the step of the runs; as for the plain lock, except that a caller that had been cancelled neither waits for a held mutex nor gets it. No other thread, queue or mutex changes. |
| `Scheduler.Kernel.Unlock` | kernel/proc/kmutex.c:99-113 | The call keeps the invariants of the scheduler and of the mutexes and is the step of the runs; the mutex is free exactly if nobody waited; otherwise the longest waiter holds it and is last on the run queue. No other thread, queue or mutex changes. |
| `TokenBucket.StepInv` | Threading/warmup2.c:161-302 | Every critical section of every thread keeps the accounts, whatever the packets need: tokens generated = dropped + in the bucket + consumed, never fewer than none in the bucket, and packets taken, then Q2, then Q1, are those that arrived, in order. |
| `TokenBucket.StepWaits` | Threading/warmup2.c:191-301 | If every packet needs a token, every critical section ends with Q1 empty or its head needing more tokens than there are. |
| `TokenBucket.DropOnlyWhenEmpty` | Threading/warmup2.c:258-268 | Then a token is dropped only when Q1 is empty, though the code does not look. |
| `TokenBucket.DepartureLeavesNone` | Threading/warmup2.c:269-301 | Then a packet that a token lets pass leaves exactly no token behind. |
| `TokenBucket.RunInv` | Threading/warmup2.c:161-417 | The accounts hold in every state of every run. |
| `TokenBucket.RunWaits` | Threading/warmup2.c:161-417 | So does the condition on the head of Q1. |
| `TokenBucket.TokenTheorem` | Threading/warmup2.c:237-302 | From the start, after any run with packets that need a token each, all of this holds of the next token. |
| `TokenBucket.NoNeedCounterexample` | Threading/warmup2.c:258-268 | For every bucket size above zero, a run of packets that need one token or none in which a token is dropped while Q1 is not empty. |
| `TokenBucket.InVainExactly` | Threading/warmup2.c:258-268 | For every bucket size b and every lower bound d on what packets need: in all runs tokens are dropped only beside an empty Q1 if and only if d >= 1 or b = 0. |
| `TokenBucket.OverExactly` | Threading/warmup2.c:213-231 | For every b and d: in all runs the bucket holds no more than its size if and only if d >= 0 (a trace file is not checked for negative needs). |
| `TokenBucket.AllStopped` | Threading/warmup2.c:161-417 | When all four threads have stopped both queues are empty, and every packet generated was dropped on arrival or taken by a server, exactly one of the two, the latter in order of arrival. |
| `Emulator.Shared.PacketArrives` | Threading/warmup2.c:191-233 | The critical section keeps the accounts and is the step of the runs; a packet is dropped exactly when it needs more than the bucket holds, else it is the last to have arrived and the head of Q1 goes to Q2 with its tokens exactly when there are enough, and Q1 is left with its head waiting if it was and the packet needs a token. |
| `Emulator.Shared.PacketThreadStops` | Threading/warmup2.c:161-168 | The thread stops exactly when all its packets have been generated, and otherwise changes nothing. |
| `Emulator.Shared.TokenArrives` | Threading/warmup2.c:258-301 | The critical section keeps the accounts and is the step of the runs; the token is dropped exactly when the bucket is full, and otherwise the head of Q1 goes to Q2 exactly when there are enough; with the head of Q1 waiting, the token is dropped only when Q1 is empty, a packet it lets pass leaves none, and the head is left waiting. |
| `Emulator.Shared.ServerTakes` | Threading/warmup2.c:312-331 | A server takes a packet exactly when Q2 has one, and it is the oldest one to have arrived that has not been taken. |
| `Emulator.Shared.BucketThreadStops` | Threading/warmup2.c:251-256 | The thread stops exactly when the packet thread has and Q1 is empty; then no packet is still to come; otherwise nothing changes. |
| `Emulator.Shared.ServerStopsNow` | Threading/warmup2.c:352-358 | A server stops exactly when the other two kinds of thread have and Q2 is empty, and then every packet that arrived has been taken. |
| `CircularList.List.constructor` | warmup1/my402list.c:229-239 | An empty ring: the anchor linked to itself. |
| `CircularList.List.Append` | warmup1/my402list.c:26-58 | The links stay a ring in both directions, the count is right, and the object is last. |
| `CircularList.List.Prepend` | warmup1/my402list.c:60-90 | The same, with the object first. |
| `CircularList.List.Unlink` | warmup1/my402list.c:91-103 | Exactly that cell leaves the ring. |
| `CircularList.List.UnlinkAll` | warmup1/my402list.c:105-127 | The list is empty and the anchor linked to itself. |
| `CircularList.List.InsertAfter` | warmup1/my402list.c:130-152 | The new cell is right after the given one, or last when none is given. |
| `CircularList.List.InsertBefore` | warmup1/my402list.c:154-177 | The new cell is right before the given one, or first when none is given. |
| `CircularList.List.First` | warmup1/my402list.c:179-186 | The first cell, or none exactly when the list is empty. |
| `CircularList.List.Last` | warmup1/my402list.c:188-193 | The last cell, or none exactly when the list is empty. |
| `CircularList.List.Next` | warmup1/my402list.c:195-202 | The cell after, or none at the end. |
| `CircularList.List.Prev` | warmup1/my402list.c:204-211 | The cell before, or none at the beginning. |
| `CircularList.List.Find` | warmup1/my402list.c:213-227 | The first cell with the object, exactly when there is one; on an empty list the anchor itself is looked at. |
| `BubbleSort.BubbleForward` | warmup1/warmup1.c:160-183 | Unlinking two neighbours and inserting two new cells exchanges exactly their objects and keeps ring, links and count. |
| `BubbleSort.Round` | warmup1/warmup1.c:196-217 | A round that ends puts one more record into its final place; one without a swap has found the list sorted. |
| `BubbleSort.SortList` | warmup1/warmup1.c:185-221 | It returns normally only with the same records in strictly increasing order, so a time that occurs twice anywhere forces the error exit. With a clock that does not run backwards the error exit is taken exactly for a wrong count, for equal times, or for a record, other than the last one given, that is not older than the clock at its turn in the first round. |
| `BubbleSort.FirstRound` | warmup1/warmup1.c:196-217 | The first round fails exactly when it meets equal times or a record other than the last that is not older than the clock. |
| `BubbleSort.LaterRound` | warmup1/warmup1.c:196-217 | A later round fails only on equal times. |
| `BubbleSort.InOrder` | warmup1/warmup1.c:217-217 | A round without a swap means that the whole list is sorted. |
| `BubbleSort.LastUnchecked` | warmup1/warmup1.c:196-217 | Two records of which the second is from the future are accepted as they are. |
| `Ramfs.FreedExactly` | kernel/fs/ramfs/ramfs.c:255-273 | An inode is in the table exactly when it has a name, has its vnode in core, or is the root. |
| `Ramfs.VgetInv` | kernel/fs/vnode.c:109-198 | Bringing a vnode into core keeps every link count right. |
| `Ramfs.VputInv` | kernel/fs/vnode.c:223-298 | Dropping a vnode reference, the inode going with its last link, keeps every link count right exactly when it does not free a directory that still has names in it. |
| `Ramfs.LastLink` | kernel/fs/ramfs/ramfs.c:255-273 | An inode whose only link is its vnode has no name and is not the root. |
| `Ramfs.NamedInv` | kernel/fs/ramfs/ramfs.c:407-439 | Giving an inode one more name, in any directory, keeps every link count right and every directory without repeated names. |
| `Ramfs.UnnamedInv` | kernel/fs/ramfs/ramfs.c:441-468 | Taking a name away keeps every link count right. |
| `Ramfs.MadeInv` | kernel/fs/ramfs/ramfs.c:318-338 | A new inode with one name, in any directory, has the right link count, no other changes, and no directory has a name twice. |
| `RamfsRuns.StepExactly` | kernel/fs/ramfs/ramfs.c:306-563 | Every operation, with its failures and on any directory, removed or not, keeps every link count right and every directory without repeated names if and only if it does not free a directory that has names in it. |
| `RamfsRuns.RunExactly` | kernel/fs/ramfs/ramfs.c:255-563 | The link counts are right in every state of a run if and only if no step of it frees a directory that has names in it. |
| `RamfsRuns.TargetKnown` | kernel/fs/ramfs/ramfs.c:390-405 | Every name other than ".." stands for an inode in the table. |
| `RemovedDirectory.ParentGone` | kernel/fs/ramfs/ramfs.c:390-405 | A run from the mount after which ".." of a directory that the caller holds stands for an inode that is gone. |
| `RemovedDirectory.InodeLost` | kernel/fs/ramfs/ramfs.c:306-344 | A run from the mount that creates a file in a removed directory: in the end its inode is in the table with neither a name nor a vnode. |
| `RamfsRuns.RunInv` | kernel/fs/ramfs/ramfs.c:306-563 | Every run without such a step keeps all of this, whatever is added to removed directories in between. |
| `RamfsRuns.MountedInv` | kernel/fs/ramfs/ramfs.c:176-216 | The counts are right after the mount. |
| `RamfsRuns.LinkCounts` | kernel/fs/ramfs/ramfs.c:306-563 | In every state of every such run from the mount, an inode's link count is the number of its names other than the dots, plus one for a vnode in core, plus one for the root; and an inode number is free exactly when it has none of these. |
| `RamfsNames.StepResult` | kernel/fs/ramfs/ramfs.c:306-563 | The result of every operation: no space exactly when the directory, or for a new inode the table, is full; not found exactly when there is no such name; not a directory and not empty exactly when the named inode is so. |
| `RamfsNames.StepNames` | kernel/fs/ramfs/ramfs.c:306-563 | What every name in every directory stands for after every operation, the dots of a new directory and the names of a freed one included. |
| `RamfsNames.StepNode` | kernel/fs/ramfs/ramfs.c:255-563 | What every operation does to the existence, kind, link count and references of every inode. |
| `RamfsNames.MountedShows` | kernel/fs/ramfs/ramfs.c:176-216 | After the mount there is the root alone, referenced once, with its two dots for names. |
| `RamfsDisk.Disk.FindIno` | kernel/fs/ramfs/ramfs.c:139-169 | The loop finds the first free inode number. |
| `RamfsDisk.Disk.Get` | kernel/fs/vnode.c:109-198 | The vnode is in core with one reference more than before, and every link count stays right. |
| `RamfsDisk.Disk.Put` | kernel/fs/vnode.c:223-298 | The last reference takes the vnode out of core and, with the last link, frees the inode; every link count stays right exactly when the inode is not a directory with names in it. |
| `RamfsDisk.Disk.CreateFile` | kernel/fs/ramfs/ramfs.c:306-344 | The method performs the create step: it fails exactly when the directory or the inode table is full; otherwise the name stands for a new inode of the right kind, the first whose number was free, and no other name is touched. Every link count stays right, also in a removed directory. |
| `RamfsDisk.Disk.MakeNode` | kernel/fs/ramfs/ramfs.c:346-388 | The method performs the mknod step: it fails exactly when the directory or the inode table is full; otherwise the name stands for a new inode of the right kind, the first whose number was free, and no other name is touched. Every link count stays right, also in a removed directory. |
| `RamfsDisk.Disk.MakeDir` | kernel/fs/ramfs/ramfs.c:470-515 | The method performs the mkdir step: it fails exactly when the directory or the inode table is full; otherwise the name stands for a new inode of the right kind, the first whose number was free, and no other name is touched. Every link count stays right, also in a removed directory. |
| `RamfsDisk.Disk.LinkName` | kernel/fs/ramfs/ramfs.c:407-439 | The method performs the link step: it fails exactly when the directory is full; otherwise the name stands for the inode, which has one link more. Every link count stays right, also in a removed directory. |
| `RamfsDisk.Disk.LookupName` | kernel/fs/ramfs/ramfs.c:390-405 | The name's inode is returned with its vnode referenced, or none, and every link count stays right. |
| `RamfsDisk.Disk.UnlinkName` | kernel/fs/ramfs/ramfs.c:441-468 | The method performs the unlink step: the name is gone, no other is touched, and the inode has one link less, or is gone if that was its last. Every link count stays right. |
| `RamfsDisk.Disk.RemoveDir` | kernel/fs/ramfs/ramfs.c:517-563 | The method performs the rmdir step: it fails exactly when there is no such name, the name is not of a directory, or the directory has names other than the dots; otherwise the name is gone and with it one link, the last one taking the inode. Every link count stays right. |

## Left out

- Pin lists, the page-out daemon, busy frames and dirty flags: a frame is resident or not, and the branch of `pframe_migrate` that unpins and cleans is the freeing of the frame.
- Use of an object after it has been freed: the count that `shadow_put` and `anon_put` lower after freeing the object is not modelled.
- Page contents below the page: memory is read and written in whole pages; `vmmap_read` and `vmmap_write` are not modelled.
- `do_brk`, kernel writes to user memory and argument checks of `do_mmap` other than its page count, placement and flush; `do_mmap` is modelled for a caller that asks for the address (it flushes the page table only then).
- ProcessVm.Map: takes page counts that come from a 32-bit byte length, for which the sum in the search for a range cannot wrap; the search itself is proved for all counts in `AddressSpace.Space.FindRange`.
- ProcessVm.PlaceAnywhere: the same.
- SlabCache.Cache.Alloc: takes a cache whose order the page allocator supports, as `SlabSizes.CalcSlabSize` chooses it when there are at least as many orders as its limit.
- PageAllocator.Pages.FreePages: takes a block together with the count it was allocated for; freeing with another count is not modelled.
- PageAllocator.Pages.AllocOrder: reports failure where the original first wakes the shadow daemon, reclaims slabs and, if so configured, tries again.
- PageAllocator.Pages.AddRange: takes a range with room for the group's own record and bitmaps; on a smaller one the original places them below the range.
- RamfsDisk.Disk.LookupName: takes a name that does not stand for a freed inode, on which the original fails an assertion; by `RamfsRuns.TargetKnown` only ".." can.
- ProcessFork.HandleFault: the page-table entry is always set; that a table cannot be allocated, which the original does not check, is modelled in `PageTable.PageDir.Map` only.
- File systems under a mapping: a file object is a map from page numbers to contents, and its mmap operation returns it with one more reference.
- Lists of areas by object (`mmo_vmas`): only counts and chains are modelled.
- Failure to allocate an area, an object, a thread or a frame (a page table's is modelled), and the out-of-memory branch of `vmmap_remove`.
- TLB: a page-table flush takes effect at once.
- `vmmap_destroy` frees the map itself; the model keeps the empty list.
- Poison patterns, red zones and debugging checks of the allocators; `kmalloc` and `kfree`.
- Arithmetic overflow in the sizes of slabs and of page groups, which are computed on unbounded integers.
- The interrupt level and the context switch itself: a switch is one step, and wakeups may come while no thread runs. Creating a cloned thread and making it runnable is one step.
- The process state that an interrupted sleep also sets, `proc_kill`, wait and exit of processes, and the reaping of threads.
- Liveness, timing, statistics and the interrupt key of the emulator; unlocked updates of its counters and flags are single steps. Its own copy of the list is the sequence that `CircularList` proves a list to be.
- List operations with failing allocation; the cast of a timestamp to int, and reading and printing of the transaction file. The clock is a parameter of the sort.
- ramfs names that are empty or do not fit, removal of the dots, file contents, sizes, device numbers, and the locking and waiting inside `vget` and `vput`.
- `s5fs`, system calls, loading of programs, terminals, drivers and the start of the kernel: mostly dispatch, or not implemented in the repository.
