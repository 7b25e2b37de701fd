# MiniKernel: a verified model

MiniKernel is a small x86-64 kernel written in C. This project models its hard
parts in Dafny and proves what they promise.

| file | what it models |
|---|---|
| `Pmm.dfy` | the frame allocator: a bitmap over 4 GiB, its free count and search hint |
| `Paging.dfy`, `Spaces.dfy`, `Teardown.dfy`, `Vmm.dfy` | four-level page tables living in allocated frames, process address spaces that share the kernel's branches, page faults, teardown |
| `Stacks.dfy` | guarded kernel stacks and their return |
| `Boot.dfy` | how all usable memory gets into the identity mapping at boot |
| `Lifetimes.dfy` | any interleaving of threads with guarded stacks and process spaces |
| `Elf.dfy`, `ElfFile.dfy` | the program loader, and what it does to a file given by its bytes |
| `Heap.dfy` | the kernel heap over runs of frames |
| `Ufs.dfy`, `Edit.dfy` | the writable file system on a sector disk, and the editor's save and load on top of it |
| `Image.dfy` | the read-only file system: the script that writes the disk and the kernel code that reads it |
| `Kernel.dfy`, `Runs.dfy`, `Fairness.dfy`, `Effects.dfy`, `Guarantees.dfy`, `Fates.dfy`, `Machine.dfy` | threads, pipes, descriptors and processes as one state machine |
| `Lang.dfy` | the expression evaluator of the script interpreter |

How it is built:

- Code that changes state is a class with the same fields and loops
  (`FrameAllocator`, `AddressSpaces`, `KernelHeap`, `FileSystem`, `Tables`, ...).
  Its methods are proved against predicates and functions over snapshots of the
  state, and the properties are lemmas about those.
- Physical memory is one store with two views, page-table entries and bytes. A
  write through one view leaves the other view of that frame arbitrary, so a
  proof that a page keeps its contents has to show that its frame is no table.
- System calls enter through an interrupt gate, so in the state machine the code
  of a call up to its end, or up to where it goes to sleep, is one step. A thread
  asleep inside `pipe_read`, `pipe_write` or `process_wait` remembers which, and
  takes another pass of that call's loop when it runs again. Timer ticks and key
  presses are steps that can come at any time.
- `Machine.dfy` holds the scan and copy loops of the C code and proves that each
  operation computes the step function; `Effects.dfy` says in plain terms what
  every step does, without the step functions; `Runs.dfy` proves that every step
  keeps the invariant; `Guarantees.dfy`, `Fairness.dfy` and `Fates.dfy` say what
  that means over whole runs.

Where the code does not do what one might expect, the model follows the code,
gives a case and proves exactly when it happens:

- `sectors_for_bytes` wraps for sizes above 2^32 - 512. `Ufs.FileSystem.WriteAt`
  says exactly when such a write succeeds and when a successful write leaves a
  sound file system; `Ufs.GrowthWraps` and `Ufs.LargeWriteBreaks` are the case.
- An empty write past the capacity of a file sets a size that the extent does not
  hold; `Ufs.FileSystem.WriteAt` has the condition, `Ufs.EmptyWriteBreaks` the case.
- When `vmm_map_page_in` fails inside `load_segment` the frame just taken is not
  given back. `Elf.LoadPage`, `Elf.ElfLoad` and `Elf.ProgramLifetime` say exactly
  when a frame is lost, in terms of the free frames and the tables that are
  missing; `Elf.LossAfterBoot` is a case.
- `load_segment` accepts a segment of more than 2^64 - 4096 bytes whose end wraps
  around; `Elf.NoWrap` and `Elf.AllInLayout` say that this size is exactly the
  limit, `Elf.WrapsToNothing` is a segment of which nothing is loaded.
- The read loop of the editor stops before its buffer is full. `Edit.LoadedBack`
  says exactly which tables come back, `Edit.LargestIsLost` is one that does not.
- `sched_yield` marks the thread it leaves as ready whatever it was, also a lone
  sleeper or a zombie that had nobody to hand over to. The invariants hold with this.
- The comment in `sched_sleep` (kernel/sched/thread.c:356-358) speaks of reaping
  children there; the code reaps only in `process_wait`, and so does the model.

## Model

| member | source | states |
|---|---|---|
| `Pmm.FrameAllocator.SetUsed` | kernel/mm/pmm.c:22-33 | exactly this frame leaves the free set; the count stays the number of clear bits; frames outside the bitmap change nothing |
| `Pmm.FrameAllocator.SetFree` | kernel/mm/pmm.c:35-45 | exactly this frame joins the free set, and the count follows |
| `Pmm.FrameAllocator.IsUsed` | kernel/mm/pmm.c:47-54 | a frame is used unless it is in the free set; frames outside the bitmap count as used |
| `Pmm.FrameAllocator.ReserveRange` | kernel/mm/pmm.c:56-63 | exactly the frames that touch the byte range leave the free set |
| `Pmm.FrameAllocator.Init` | kernel/mm/pmm.c:65-106 | free are exactly the frames wholly inside one usable region that touch no reserved range |
| `Pmm.FrameAllocator.AllocFrame` | kernel/mm/pmm.c:108-123 | takes the first free frame from the hint on, cyclically; fails only when no frame is free, whatever the hint |
| `Pmm.ScanReaches` | kernel/mm/pmm.c:111-112 | the cyclic scan meets every frame once |
| `Pmm.FrameAllocator.FindRun` | kernel/mm/pmm.c:143-160 | finds the lowest run of free frames of this length, or there is none |
| `Pmm.FrameAllocator.AllocContiguous` | kernel/mm/pmm.c:137-164 | takes the lowest free run of the length asked for; 0 and no change exactly when there is none or the length is 0 |
| `Pmm.FrameAllocator.FreeFrame` | kernel/mm/pmm.c:166-170 | the frame of the address joins the free set; a second free of a free frame is counted apart |
| `Pmm.ZeroMeansFailure` | kernel/mm/pmm.c:113-122 | with frame 0 reserved the result 0 means failure only |
| `Paging.PageOfInjective` | kernel/mm/vmm.c:15-26 | below 2^48 the four indices name the 4 KiB page number |
| `Paging.LeafRights` | kernel/mm/vmm.c:34-52 | in well-formed tables the rights of a page are those of its last entry |
| `Paging.LinkKeeps` | kernel/mm/vmm.c:36-51 | linking a zeroed table keeps the tables well formed and every translation |
| `Paging.SplitKeeps` | kernel/mm/vmm.c:99-138 | replacing a 2 MiB page by 512 small entries keeps the tables well formed and every translation and right |
| `Paging.SetLeafKeeps` | kernel/mm/vmm.c:153-153 | writing a last entry keeps the tables well formed |
| `Spaces.LeafRemaps` | kernel/mm/vmm.c:147-171 | writing the last entry of a page changes the translation of that page and of no other, in the roots that share the branch |
| `Spaces.ExtendSpaces` | kernel/mm/vmm.c:85-141 | building a path keeps the discipline of user frames: allocated, no tables, mapped once over all spaces |
| `Vmm.AddressSpaces.constructor` | kernel/mm/vmm.c:348-351 | the tables handed over at boot satisfy the invariant and map the first 2 MiB to themselves |
| `Vmm.BootSound` | kernel/mm/vmm.c:348-351 | the boot tables are well formed, in frames that are not free |
| `Vmm.AddressSpaces.GetOrCreateTable` | kernel/mm/vmm.c:34-52 | the link exists afterwards with the user bit, under a table of the right level; no translation changes; failure changes nothing and means that no frame is free |
| `Vmm.AddressSpaces.HangPt` | kernel/mm/vmm.c:105-115 | a new level-1 table, zeroed or equivalent to the 2 MiB page it replaces, is linked |
| `Vmm.AddressSpaces.GetOrSplitPt` | kernel/mm/vmm.c:95-138 | the page directory entry leads to a level-1 table afterwards; no translation changes; an existing path costs no frame |
| `Vmm.AddressSpaces.GetOrSplitPtEntry` | kernel/mm/vmm.c:85-141 | the whole path to a page exists afterwards and no translation changed; it takes one frame for each missing table and fails exactly when fewer are free |
| `Paging.HangDepth` | kernel/mm/vmm.c:34-51 | a new table lengthens the walks of exactly the pages below it by one |
| `Paging.DeeperNext` | kernel/mm/vmm.c:85-115 | building a path deepens other walks exactly as far as they share it |
| `Vmm.BuiltNext` | kernel/mm/vmm.c:85-141 | each step of building a path takes a frame exactly when its table is missing |
| `Vmm.BuiltStops` | kernel/mm/vmm.c:85-141 | when a step gets no frame, fewer frames were free at the start than tables were missing |
| `Vmm.LeafUntracked` | kernel/mm/vmm.c:147-171 | a change in a branch shared with the kernel changes what no process space owns |
| `Vmm.AddressSpaces.MapPageIn` | kernel/mm/vmm.c:147-156 | success makes exactly that page translate to the frame with these rights; every other page keeps translation and rights; it fails exactly when fewer frames are free than tables are missing, and then changes no translation |
| `Vmm.AddressSpaces.UnmapPageIn` | kernel/mm/vmm.c:158-171 | success unmaps exactly that page; it fails exactly when a 2 MiB page has to be split and no frame is free, and then changes no translation; frames that left the free set became tables |
| `Vmm.AddressSpaces.IsMappedIn` | kernel/mm/vmm.c:173-183 | agrees with the translation function |
| `Vmm.AddressSpaces.IsUserAccessibleIn` | kernel/mm/vmm.c:185-208 | true exactly when the page translates with the user right on every level |
| `Vmm.AddressSpaces.UserRangeOk` | kernel/core/syscall.c:21-39 | accepts exactly the ranges that do not wrap and whose every byte user code may touch |
| `Vmm.AddressSpaces.AllocZeroedFrame` | kernel/mm/pmm.c:125-135 | a free frame with all bytes 0, used by nobody; nothing else changes |
| `Vmm.AddressSpaces.MapFreshPage` | kernel/mm/vmm_growable_stack.c:73-82 | maps a zeroed fresh frame at an unmapped page, or gives the frame back, exactly when the frames do not suffice for page and missing tables; free frames plus what the space owns stay the same; unused frames and other paths are not disturbed |
| `Vmm.AddressSpaces.CreateAddressSpace` | kernel/mm/vmm.c:284-295 | the new space translates as the kernel does and owns its root frame only; it fails exactly when no frame is free |
| `Vmm.AddressSpaces.FreePages` | kernel/mm/vmm.c:331-337 | releases the user frames of a level-1 table, each of them held before and released once |
| `Vmm.AddressSpaces.FreePrivate` | kernel/mm/vmm.c:308-343 | releases all frames below the private branches, each of them once, and none of the kernel's |
| `Vmm.AddressSpaces.DestroyAddressSpace` | kernel/mm/vmm.c:303-346 | exactly the frames the space owned become free, none was free before, and other spaces own what they did |
| `Teardown.HomeUnique` | kernel/mm/vmm.c:308-343 | a frame met in the walk is met at one place only, so no frame is released twice |
| `Teardown.ReleasedIsOwned` | kernel/mm/vmm.c:308-345 | what the nested loops release is exactly what the space owns |
| `Teardown.DropKeeps` | kernel/mm/vmm.c:303-346 | without the tables of the dead space the tables are well formed |
| `Teardown.DropSpaces` | kernel/mm/vmm.c:303-346 | the remaining spaces keep the discipline of user frames after the release |
| `Teardown.CopyRootWalks` | kernel/mm/vmm.c:289-292 | a copy of the kernel root translates every page as the kernel does |
| `Vmm.AddressSpaces.HandlePageFault` | kernel/mm/vmm_growable_stack.c:60-83 | handles a fault exactly when a registered stack covers the page, it is unmapped and the frames suffice; then one zeroed user page is mapped there; else no translation changes |
| `Vmm.AddressSpaces.FindRegion` | kernel/mm/vmm_growable_stack.c:45-58 | finds a region of this space that covers the page exactly when there is one |
| `Vmm.AddressSpaces.ProcessLifetime` | kernel/mm/vmm.c:284-346 | creating a space, touching any pages in slots of its own and destroying it restores the free set exactly, without a double free |
| `Paging.SetHugeWalks` | kernel/mm/vmm.c:64-67 | a 2 MiB entry at an absent place maps its 512 pages and changes no other page |
| `Paging.SetHugeKeeps` | kernel/mm/vmm.c:64-67 | and keeps the tables well formed |
| `Boot.Map2mbIdentity` | kernel/mm/vmm.c:54-68 | maps the 2 MiB to themselves unless their directory entry is in use, or changes no translation and no frame is free |
| `Boot.MapRegion` | kernel/mm/vmm.c:359-364 | every whole frame of a region is covered, or no frame is free; what was covered keeps its translation |
| `Boot.VmmInit` | kernel/mm/vmm.c:348-366 | every frame of a usable region is mapped to its own address, or no frame is free; what was covered keeps its translation |
| `Boot.BootMemoryManagers` | kernel/core/main.c:37-44 | from any memory map, all free frames are mapped to their own addresses after boot, as guarded stacks need |
| `Stacks.AllocGuardedStack` | kernel/sched/thread.c:173-192 | three frames leave the free set; unmaps the guard page and nothing else; it fails exactly when there are no three free frames in a row, or the guard is in a 2 MiB page and no fourth frame is free, and then gives back all three frames and changes no translation; other stacks, spaces and paths do not notice |
| `Stacks.SetGuard` | kernel/sched/thread.c:182-187 | the guard page is unmapped in every space that shares the branch, or all three frames are free again, exactly when a split finds no frame |
| `Stacks.GiveBack` | kernel/sched/thread.c:184-185 | the three frames are free again |
| `Stacks.ReapStack` | kernel/sched/thread.c:130-137 | the guard page has its own address again, no other page changes, and all three frames are free; other stacks, spaces and paths do not notice |
| `Stacks.RestoreGuard` | kernel/sched/thread.c:134-135 | mapping the guard page back needs no memory and cannot fail |
| `Stacks.StackLifetime` | kernel/sched/thread.c:116-192 | after allocation and reaping every translation in every address space is what it was, and the free frames too but for page tables made by splitting |
| `Lifetimes.StartThread` | kernel/sched/thread.c:173-192 | a stack is allocated exactly when that is possible, next to any number of live stacks and process spaces; all of them stay as they should be |
| `Lifetimes.ReapThread` | kernel/sched/thread.c:130-137 | any live stack can be reaped, in any space; it is gone then and the others stay |
| `Lifetimes.TouchPage` | kernel/mm/vmm_growable_stack.c:60-83 | mapping a page of a process leaves stacks and kernel pages alone; the page is mapped afterwards exactly when it was, or it is private and the frames suffice |
| `Lifetimes.OpenSpace` | kernel/mm/vmm.c:284-295 | so does creating a space, which fails exactly without a free frame |
| `Lifetimes.CloseSpace` | kernel/mm/vmm.c:303-346 | so does destroying one |
| `Lifetimes.Run` | kernel/sched/thread.c:116-192 | after any sequence of starts, reaps, page faults, creations and destructions the kernel translates as at first but for the guard pages of live stacks, and each frame that was free is free, in a live stack, owned by a space, or a page table made by a split, and only one of these |
| `Lifetimes.AllReaped` | kernel/sched/thread.c:116-154 | once all stacks are reaped every page of the kernel translates as at first, in every space, and all frames are back but the tables made by splits and what living spaces own |
| `Lifetimes.Started` | kernel/sched/thread.c:173-192 | the invariant of a run survives a new stack |
| `Lifetimes.Reaped` | kernel/sched/thread.c:130-137 | and its return |
| `Lifetimes.Touched` | kernel/mm/vmm_growable_stack.c:60-83 | and a page fault |
| `Lifetimes.Closed` | kernel/mm/vmm.c:303-346 | and the end of a space |
| `Lifetimes.BootAndRun` | kernel/core/main.c:37-44 | the same from power-on, for any memory map |
| `Elf.NoWrap` | kernel/core/elf/elf_loader.c:48-62 | the end of an accepted segment does not wrap around exactly when the segment has at most 2^64 - 4096 bytes |
| `Elf.AllReached` | kernel/core/elf/elf_loader.c:48-64 | all bytes of an accepted segment are on pages that are loaded exactly under that condition |
| `Elf.WrapsToNothing` | kernel/core/elf/elf_loader.c:41-64 | a segment that is accepted and of which no page is loaded |
| `Elf.EntryMeans` | kernel/core/elf/elf_loader.c:103-117 | without wrapping segments the entry is accepted exactly when an executable segment holds it |
| `Elf.EntryIsExecutable` | kernel/core/elf/elf_loader.c:103-117 | the loop decides that check and reads inside the file only |
| `Elf.LoadPage` | kernel/core/elf/elf_loader.c:64-98 | one page is mapped to a fresh frame with the file's bytes and zeros; what was in place stays; it fails exactly when page and missing tables take more frames than are free, and loses a frame exactly when it fails with one free |
| `Elf.CopyPart` | kernel/core/elf/elf_loader.c:80-97 | the part of the page the file covers gets the file's bytes, the rest stays 0, and all reads are inside the file |
| `Elf.LoadSegment` | kernel/core/elf/elf_loader.c:41-101 | places exactly the pages of the segment, or fails: for a bad segment, or at the first page for which the frames do not suffice |
| `Elf.LoadAll` | kernel/core/elf/elf_loader.c:147-155 | places all PT_LOAD segments in order, exactly when all are good and the frames suffice; a frame is lost exactly when they run out between a page and its tables |
| `Elf.LosesAt` | kernel/core/elf/elf_loader.c:66-78 | a load stops at one page at most; a frame is lost exactly when there was one left for that page |
| `Elf.StopsSomewhere` | kernel/core/elf/elf_loader.c:64-98 | a load stops at some page exactly when the frames do not suffice for all |
| `Elf.LossAfterBoot` | kernel/core/elf/elf_loader.c:66-78 | a concrete case: a page in an empty slot, with one to three free frames, loses one; with none or four it does not |
| `Elf.ElfLoad` | kernel/core/elf/elf_loader.c:119-162 | accepts exactly the files with good header, entry and segments for which the frames suffice, and then memory holds the layout of the segments; loses a frame exactly under the caller's condition `Elf.LoadLoses` |
| `Elf.LayoutHolds` | kernel/core/elf/elf_loader.c:64-98 | the layout of page-disjoint segments has every page of every segment, with its own contents |
| `Elf.AllInLayout` | kernel/core/elf/elf_loader.c:41-101 | the layout of page-disjoint segments has every byte of a segment exactly when it has at most 2^64 - 4096 bytes |
| `Elf.LoadedBytes` | kernel/core/elf/elf_loader.c:41-162 | read through the page tables every byte of every segment is the file's byte or, past the file's part, 0, with the segment's rights |
| `Elf.ProgramLifetime` | kernel/core/process.c:177-223 | creating a space, loading a program, mapping its stack, any page faults and destroying the space restores the free set, except for one frame, lost exactly when the load runs out between a page and its tables |
| `ElfFile.FileIs` | kernel/core/elf/elf_loader.c:119-145 | in a file that encodes a header and program headers at their byte positions, least significant byte first, with X as bit 0 and W as bit 1 of the flags, the loader reads exactly those fields |
| `ElfFile.SegmentOkMeans` | kernel/core/elf/elf_loader.c:41-62 | the checks accept exactly the segments inside the file, with no more file bytes than memory bytes and a start and end that do not wrap, and those whose size alone wraps |
| `ElfFile.EntryIs` | kernel/core/elf/elf_loader.c:103-117 | the entry check accepts exactly an entry inside a loadable segment with the X bit |
| `ElfFile.AllInMemory` | kernel/core/elf/elf_loader.c:41-101 | every byte of every loadable segment is in memory: byte k of the file's part, or 0 past it, readable by user code, with the W and X rights of the flag bits |
| `ElfFile.LoadFile` | kernel/core/elf/elf_loader.c:119-162 | loading such a file succeeds exactly when machine, type and entry size are right, the entry is in an executable segment and the frames suffice; then all its bytes are in memory and the entry is the header's plus the bias |
| `Elf.RunStack` | kernel/core/process.c:122-142 | the first stack page and the faults that grow the stack take frames that the space owns, and no others |
| `Heap.KernelHeap.GrowHeap` | kernel/mm/heap.c:21-45 | puts the lowest run that holds the size in front of the list, as one free block of the whole run, and records it; fails exactly when there is none; the blocks still tile the frames taken |
| `Heap.KernelHeap.Kmalloc` | kernel/mm/heap.c:49-98 | takes the first free block that fits, or a new run in front, the only case that takes frames; of its B bytes the live block gets the request rounded up to 16, and the rest becomes a free block behind it when B leaves room for a header and 16 bytes, else the block keeps all B; all other blocks stay; fails exactly for size 0, a size too near 2^64, or when neither exists |
| `Heap.KernelHeap.Carve` | kernel/mm/heap.c:78-97 | the chosen free block becomes live with exactly the size asked for and a free block of the remaining bytes behind it, or whole when the rest is too small; the other blocks stay and no header is written into a live payload |
| `Heap.KernelHeap.Kfree` | kernel/mm/heap.c:100-137 | an unknown or free pointer changes nothing; otherwise exactly that block stops being live and no two free neighbours remain; if it was the last, every block starts and ends where a run does |
| `Heap.KernelHeap.MergePass` | kernel/mm/heap.c:123-134 | the loop computes the merging pass, live blocks stay, and no header is written into a live payload |
| `Heap.SplitTiled` | kernel/mm/heap.c:78-91 | splitting keeps the tiling of the frames taken |
| `Heap.GrownTiled` | kernel/mm/heap.c:35-42 | growing keeps the tiling |
| `Heap.MergedKeeps` | kernel/mm/heap.c:123-134 | merging keeps the tiling and the live blocks and leaves no mergeable pair |
| `Heap.NothingLeftInPieces` | kernel/mm/heap.c:123-134 | when nothing is live after merging, every block starts where a run starts and ends where a run ends |
| `Ufs.WordRoundTrip` | kernel/core/ufs.c:39-49 | a stored word reads back, and words apart from it are not touched |
| `Ufs.WordBytes` | kernel/core/ufs.c:39-49 | a stored word has its least significant byte first; no other byte changes |
| `Ufs.SuperBytes` | kernel/core/ufs.c:81-92 | the superblock byte by byte: magic, file count at byte 4, next free sector at byte 8, zeros |
| `Ufs.EntryBytes` | kernel/core/ufs.c:18-30 | a directory entry read from its 40 bytes: name, start, size, capacity, owner, permissions |
| `Ufs.DoubledFacts` | kernel/core/ufs.c:326-329 | doubling from a power of two gives a power of two that reaches n and is below 2n |
| `Ufs.NewCapFacts` | kernel/core/ufs.c:314-329 | the new capacity holds the bytes asked for exactly when their number is at most 2^32 - 512 |
| `Ufs.GrowthWraps` | kernel/core/ufs.c:314-316 | one byte above that limit reserves one sector |
| `Ufs.EmptyWriteBreaks` | kernel/core/ufs.c:366-414 | an empty write past the capacity succeeds and breaks the file system |
| `Ufs.LargeWriteBreaks` | kernel/core/ufs.c:314-414 | so does a write that ends one byte above 2^32 - 512, exactly on disks that reach so far; on others it stops half way |
| `Ufs.GrownFrugal` | kernel/core/ufs.c:318-364 | all sectors ever given to a file number at most 2 * capacity - 1, below 4n after growing to n sectors |
| `Ufs.StepKeeps` | kernel/core/ufs.c:209-458 | a change of one slot and its own extent keeps extents disjoint and below the next free sector, names unique and the count right |
| `Ufs.StepFiles` | kernel/core/ufs.c:209-458 | such a change replaces one entry of the map from names to files and no other |
| `Ufs.Remount` | kernel/core/ufs.c:119-149 | directory, count and next free sector are determined by the disk alone |
| `Ufs.FileSystem.PersistSuperblock` | kernel/core/ufs.c:81-92 | the superblock sector holds magic, count and next free sector |
| `Ufs.FileSystem.PersistDirectory` | kernel/core/ufs.c:94-96 | the directory sectors hold the directory, other sectors stay |
| `Ufs.FileSystem.CountUsedEntries` | kernel/core/ufs.c:98-105 | counts the used entries |
| `Ufs.FileSystem.FormatFresh` | kernel/core/ufs.c:107-117 | an empty, sound and stored file system |
| `Ufs.FileSystem.Init` | kernel/core/ufs.c:119-167 | a mounted file system is mounted again exactly as it was; a disk without the magic number is formatted |
| `Ufs.FileSystem.Find` | kernel/core/ufs.c:196-207 | the slot of that name, or there is no such name |
| `Ufs.StrEq` | kernel/core/ufs.c:55-62 | decides equality of C strings |
| `Ufs.FileSystem.SetName` | kernel/core/ufs.c:71-79 | the name field holds the name, filled up with zeros; nothing else changes |
| `Ufs.FileSystem.Create` | kernel/core/ufs.c:209-243 | adds an empty file in the lowest free slot, exactly when the name is good and new and a slot is free; a failure changes nothing |
| `Ufs.FileSystem.Delete` | kernel/core/ufs.c:245-260 | removes exactly that file, or changes nothing when there is none |
| `Ufs.FileSystem.Truncate` | kernel/core/ufs.c:298-312 | changes the size within the capacity and keeps the bytes below both sizes |
| `Ufs.FileSystem.CopySectors` | kernel/core/ufs.c:340-354 | the sectors are copied, all others stay |
| `Ufs.FileSystem.DoubleUntil` | kernel/core/ufs.c:325-329 | the doubling loop computes the new capacity |
| `Ufs.FileSystem.EnsureCapacity` | kernel/core/ufs.c:318-364 | no file changes its contents; running out of space changes nothing; success leaves the room exactly up to 2^32 - 512 bytes |
| `Ufs.FileSystem.WriteBytes` | kernel/core/ufs.c:381-407 | exactly these bytes of the extent change, as far as the disk reaches; it succeeds exactly when it reaches to the end |
| `Ufs.FileSystem.WriteAt` | kernel/core/ufs.c:366-416 | says exactly when a write succeeds; success writes exactly these bytes of this file and no other file, even when the file moved; out of space changes nothing; the result is sound exactly under a condition on offset and length; a write that stops at the end of the disk has written exactly what fits and leaves a sound file system |
| `Ufs.FileSystem.ReadAt` | kernel/core/ufs.c:418-459 | the bytes of the file from the offset, as many as there are |
| `Ufs.FileSystem.WriteRebootRead` | kernel/core/ufs.c:119-459 | what was written is read back after mounting from the disk alone; the write succeeds exactly when there is room |
| `Runs.StepKeeps` | kernel/sched/thread.c:318-533 | every step keeps descriptor counts, streams, justified sleepers and process records |
| `Runs.SysPipeKeeps` | kernel/core/syscall.c:188-220 | so does SYS_PIPE, with its failure path |
| `Runs.FdCloseKeeps` | kernel/core/fd.c:50-73 | so does closing a descriptor |
| `Runs.SpawnRedirectKeeps` | kernel/core/process.c:294-326 | so does spawning with redirected descriptors |
| `Runs.GrowKeeps` | kernel/sched/thread.c:88-114 | so does the growth of the thread table |
| `Runs.CleanupKeeps` | kernel/core/fd.c:58-64 | releasing the descriptors of a zombie takes exactly those out of the counts |
| `Runs.WaitPassKeeps` | kernel/core/process.c:332-357 | so does a pass of process_wait, with reaping |
| `Runs.ExitKeeps` | kernel/sched/thread.c:479-506 | so does an exit |
| `Runs.KillKeeps` | kernel/sched/thread.c:508-533 | so does a kill |
| `Runs.ReadPassKeeps` | kernel/core/pipe.c:84-118 | so does a pass of pipe_read |
| `Runs.WritePassKeeps` | kernel/core/pipe.c:120-155 | so does a pass of pipe_write |
| `Runs.SleepKeeps` | kernel/sched/thread.c:353-385 | so does going to sleep for a reason that will be announced |
| `Runs.StoredRing` | kernel/core/pipe.c:142-146 | storing appends the bytes to the ring's contents |
| `Runs.TakenRing` | kernel/core/pipe.c:100-104 | taking removes the oldest bytes and keeps the rest in order |
| `Guarantees.Reachable` | kernel/sched/thread.c:199-219 | the invariant holds at boot and in every state of every run |
| `Guarantees.NoLostWakeup` | kernel/core/pipe.c:110-115 | asleep in pipe_read means empty with a writer left, in pipe_write full with a reader left, in process_wait a child that has not exited |
| `Guarantees.CountsAreDescriptors` | kernel/core/pipe.c:24-82 | readers and writers are the numbers of descriptors over all threads and zombies; a slot is free exactly when no descriptor names it |
| `Guarantees.PipeStays` | kernel/core/pipe.c:91-96 | a thread that wakes inside a pipe call finds its pipe in use |
| `Guarantees.ReadsInOrder` | kernel/core/pipe.c:84-118 | a read of a pipe that is not empty returns min(count, len) bytes, the next ones accepted; 0 for a positive length only when all was delivered and no writer is left |
| `Guarantees.WritesInOrder` | kernel/core/pipe.c:120-155 | a write puts min(room, length) bytes at the end of the stream, and is refused exactly when no reader is left |
| `Effects.StepMeans` | kernel/sched/thread.c:318-533 | every event has exactly its effect on threads, pipes, records and processor, stated without the step functions; in a state where it cannot happen it has none |
| `Effects.YieldMeans` | kernel/sched/thread.c:318-341 | the thread that is left is ready and else as it was; the first runnable one in cyclic order runs with 2, 4 or 8 ticks by its priority; no other changes; nothing happens when no other can run |
| `Effects.TickMeans` | kernel/sched/thread.c:343-351 | one tick less, and a yield when none is left |
| `Effects.SleepMeans` | kernel/sched/thread.c:353-385 | the thread is blocked on the channel and the next in turn starts a full quantum, or stays current when no other can run |
| `Effects.WakeupMeans` | kernel/sched/thread.c:387-399 | exactly the threads blocked on the channel become ready, with no channel |
| `Effects.MarkMeans` | kernel/core/process.c:364-372 | the record of that thread, and no other, is exited with this status, and exactly who sleeps on its pid is woken |
| `Effects.LeaveMeans` | kernel/sched/thread.c:479-506 | the caller is a zombie, its record exited with this status, waiters on process and thread are awake, and the next in turn goes on with the ticks it had |
| `Effects.SignalMeans` | kernel/core/process.c:385-396 | a kill ends exactly the live process with that pid, with status -128 - sig, and answers 0; when there is none it answers -1 and changes nothing |
| `Effects.ReadMeans` | kernel/core/pipe.c:84-118 | a pass takes the min(count, len) oldest bytes of the ring and wakes the pipe's sleepers, answers at the end of the stream, or sleeps |
| `Effects.WriteMeans` | kernel/core/pipe.c:120-155 | a pass puts min(room, length) bytes behind what the ring holds and wakes the pipe's sleepers, is refused without a reader, or sleeps |
| `Effects.OpenMeans` | kernel/sched/thread.c:407-428 | exactly the lowest free descriptor from 2 up is taken; -1 and no change when none is free |
| `Effects.CloseMeans` | kernel/core/fd.c:50-73 | one reader or writer fewer, the pipe free exactly when both are gone, its sleepers awake, the descriptor free |
| `Effects.PipesMean` | kernel/core/syscall.c:188-220 | the lowest free pipe is opened, the first answer is its read end and the second its write end, in the two lowest free slots from 2 up; otherwise -1 twice and no pipe or descriptor is taken |
| `Effects.SpawnMeans` | kernel/sched/thread.c:221-295 | the lowest unused slot, or the first of a table of twice the size, gets a ready thread of the priority asked for with its 2, 4 or 8 ticks and the console as descriptors 0 and 1; no other thread changes |
| `Effects.SpawnProcessMeans` | kernel/core/process.c:244-267 | the lowest free record gets the next pid, the caller's pid as parent, and the new thread; without a thread the record is free again |
| `Effects.RedirectsMean` | kernel/core/process.c:304-322 | descriptor 0 of the child becomes the read end and 1 the write end that the caller's descriptors name, each counted once more, and nothing else changes |
| `Effects.LaunchMeans` | kernel/core/process.c:294-326 | a redirected spawn is these two in a row |
| `Effects.CleanupMeans` | kernel/core/fd.c:58-64 | closing all descriptors of a zombie wakes exactly the sleepers on pipes that they name and changes only the ends of pipes |
| `Effects.ReapMeans` | kernel/sched/thread.c:116-154 | a zombie's slot is unused, without descriptors, channel or place; any other thread is not reaped |
| `Effects.WaitMeans` | kernel/core/process.c:332-357 | answers -1 for a process that is not the caller's child, the status of an exited child, whose record and thread go, and sleeps on the pid of a living one |
| `Fates.Preempted` | kernel/sched/thread.c:318-351 | whenever a tick or a yield changes the current thread, the old one is ready with everything else as it was, the new one runs with 2, 4 or 8 ticks by its priority, and all others are unchanged |
| `Fates.StepFate` | kernel/sched/thread.c:318-533 | a thread that can run still can after any step, but for a sleeping or exiting call of its own and a kill aimed at its process; one that has ended never comes back |
| `Fates.StoppedByItself` | kernel/sched/thread.c:318-533 | over any run: a runnable thread that no longer is made such a call or was killed |
| `Fates.StepRecords` | kernel/core/process.c:244-396 | what a step does to each process record: an exit or kill sets exactly its status, collecting by the parent frees an exited one, a spawn fills a free one with a fresh pid, loading marks it live; nothing else |
| `Fates.SettledStays` | kernel/core/process.c:385-391 | the thread of an exited process stays ended until it is collected, so no event ends a process twice |
| `Fates.EndIsFinal` | kernel/core/process.c:332-396 | over any run: once a process has ended with a code, every later state has it so, and no other event of the run ends it |
| `Fates.CodeOfChild` | kernel/core/process.c:332-396 | over any run: the status that process_wait answers is the one the child left with, or -128 - sig of the signal that killed it, and exactly one event of the run ended it |
| `Fates.ChildAnswers` | kernel/core/process.c:332-357 | conversely, after that event a wait by the parent answers with that code, however late, unless the child was collected |
| `Fates.BootSettled` | kernel/sched/thread.c:199-219 | the boot state satisfies what these results ask of the first state |
| `Fairness.NextCloser` | kernel/sched/thread.c:162-171 | a switch goes to a waiting ready thread or closer to it in cyclic order |
| `Fairness.StepNearer` | kernel/sched/thread.c:318-385 | no step moves a ready thread away from running, and every tick brings it nearer |
| `Fairness.BoundedWaiting` | kernel/sched/thread.c:318-351 | a ready thread that is not killed runs within N - 1 switches and 8 (N - 1) ticks in a table of N slots |
| `Machine.Tables.FindNextRunnable` | kernel/sched/thread.c:162-171 | the loop finds the next runnable slot |
| `Machine.Tables.SchedYield` | kernel/sched/thread.c:318-341 | computes the yield step |
| `Machine.Tables.SchedTick` | kernel/sched/thread.c:343-351 | computes the tick step |
| `Machine.Tables.SchedSleep` | kernel/sched/thread.c:353-385 | computes the sleep step, also for a thread with nobody to run after it |
| `Machine.Tables.SchedWakeup` | kernel/sched/thread.c:387-399 | wakes exactly the sleepers on the channel |
| `Machine.Tables.SchedFdOpen` | kernel/sched/thread.c:407-428 | takes the lowest free descriptor from 2 up |
| `Machine.Tables.SchedExitStatus` | kernel/sched/thread.c:479-506 | computes the exit step |
| `Machine.Tables.SchedKill` | kernel/sched/thread.c:508-533 | computes the kill step |
| `Machine.Tables.ReapZombie` | kernel/sched/thread.c:116-154 | computes the reap step |
| `Machine.Tables.SchedSpawn` | kernel/sched/thread.c:221-295 | computes the spawn step, growing the table when it is full |
| `Machine.Tables.GrowTable` | kernel/sched/thread.c:88-114 | the old slots are copied and as many unused ones added |
| `Machine.Tables.PipeCreate` | kernel/core/pipe.c:29-42 | opens the lowest free pipe |
| `Machine.Tables.PipeCloseReader` | kernel/core/pipe.c:62-71 | computes the close step |
| `Machine.Tables.PipeReadPass` | kernel/core/pipe.c:90-117 | computes a pass of pipe_read, byte by byte |
| `Machine.Tables.PipeWritePass` | kernel/core/pipe.c:126-154 | computes a pass of pipe_write, byte by byte |
| `Machine.Tables.FdCleanupThread` | kernel/core/fd.c:58-64 | computes the cleanup of a thread's descriptors |
| `Machine.Tables.CloseFd` | kernel/core/fd.c:66-73 | computes the close of a descriptor |
| `Machine.Tables.MakePipe` | kernel/core/syscall.c:188-220 | computes SYS_PIPE with its failure path |
| `Machine.Tables.ProcessMarkExited` | kernel/core/process.c:364-372 | computes the marking and wakes the waiting parent |
| `Machine.Tables.ProcessKill` | kernel/core/process.c:385-396 | computes the kill of a process |
| `Machine.Tables.ProcessWaitPass` | kernel/core/process.c:333-356 | computes a pass of process_wait and returns the child's status |
| `Machine.Tables.ProcessSpawn` | kernel/core/process.c:244-267 | computes the spawn of a process with a fresh pid, or takes the record back |
| `Machine.Tables.ProcessSpawnRedirect` | kernel/core/process.c:294-326 | computes the redirected spawn |
| `Machine.Tables.HandleAll` | kernel/sched/thread.c:199-533 | the machine follows the state machine through any run and keeps the invariant |
| `Lang.ParseIsValue` | programs/lang.c:135-198 | the text of any expression, with any blanks, is consumed whole and gives that value |
| `Lang.RoundTrip` | programs/lang.c:135-198 | printing any expression and evaluating the text gives its value by ordinary arithmetic on decimal numbers, with division that truncates toward zero and gives 0 for divisor 0 |
| `Lang.FactorText` | programs/lang.c:135-168 | a factor at the cursor is consumed and gives its value |
| `Lang.TermText` | programs/lang.c:170-185 | products and quotients group to the left |
| `Lang.SumText` | programs/lang.c:187-198 | sums and differences of terms group to the left |
| `Lang.ApplyMeans` | programs/lang.c:176-194 | each operator computes the sum, difference, product or quotient of integers |
| `Lang.TruncatedIs` | programs/lang.c:180-180 | the quotient is the only one whose remainder is smaller than the divisor and has the sign of the dividend |
| `Lang.NumberIsDecimal` | programs/lang.c:152-159 | a run of digits is read as the sum of its digits times powers of ten |
| `Lang.DivideTruncates` | programs/lang.c:180-180 | division truncates toward zero |
| `Lang.Expr` | programs/lang.c:187-198 | on any text the cursor never moves backwards nor past the end |
| `Lang.Interpreter.ParseFactor` | programs/lang.c:135-168 | the recursive code computes that function and ends on any text |
| `Lang.Interpreter.ParseTerm` | programs/lang.c:170-185 | the loop computes that function and ends on any text |
| `Lang.Interpreter.ParseExpr` | programs/lang.c:187-198 | the loop computes that function and ends on any text |
| `Lang.Interpreter.ReadIdent` | programs/lang.c:122-131 | moves past the whole identifier and keeps its first 15 characters |
| `Lang.Interpreter.ReadVar` | programs/lang.c:161-165 | the value of the variable, 0 when it has none |
| `Lang.Interpreter.Assign` | programs/lang.c:92-108 | the variable gets the value and all others keep theirs, unless the table is full |
| `Image.Build` | mkdisk.py:18-72 | refuses exactly too many files or long names; otherwise writes the image |
| `Image.MakeDirectory` | mkdisk.py:36-54 | the directory has name, first sector and size of every file |
| `Image.AddBlobs` | mkdisk.py:59-69 | every file stands at its first sector, filled up to whole sectors |
| `Image.SuperBytes` | mkdisk.py:32-34 | the superblock byte by byte: magic, file count at byte 4, zeros |
| `Image.EntryBytes` | mkdisk.py:36-54 | a directory entry byte by byte: name filled up with zeros, first sector at 20, size at 24, zeros |
| `Image.Reader.Init` | kernel/core/fs.c:25-57 | mounts exactly the disks with the magic number; a disk that begins with a written image gives its directory and file count |
| `Image.Reader.Find` | kernel/core/fs.c:82-89 | finds an entry of that name, or there is none |
| `Image.Reader.ReadFile` | kernel/core/fs.c:91-111 | reads the sectors of the file, 256 at a time |
| `Image.Reader.MountAndRead` | kernel/core/fs.c:25-111 | on any disk that begins with a written image each file is found by name with its exact size and reads as its bytes, an empty one exactly if the disk goes on at its start |
| `Image.FormatRegion` | mkdisk.py:77-107 | refuses exactly an image that reaches into the region, else appends an empty writable file system |
| `Image.MakeDisk` | mkdisk.py:122-123 | the image with that region behind it |
| `Image.FirstBoot` | mkdisk.py:18-123 | on a disk that the script wrote every file is found and reads back, and the writable file system mounts, sound and empty |
| `Image.BlobAt` | mkdisk.py:59-69 | file i stands at the sum of the sectors before it |
| `Edit.Editor.Insert` | programs/edit.c:299-327 | the line is inserted at its place, the others keep their order |
| `Edit.Editor.Delete` | programs/edit.c:350-366 | exactly that line goes |
| `Edit.Editor.Append` | kernel/core/fd.c:127-142 | a write at the end of the file appends and moves the cursor; it fails exactly when the sectors run out, and then changes nothing |
| `Edit.Editor.Save` | programs/edit.c:233-247 | succeeds exactly when the file or a slot for it is there and the sectors for its growth are free; then the file holds the text of the table; no other file changes |
| `Edit.Editor.ReadContent` | programs/edit.c:207-213 | the read loop gets the whole file, or its first 24064 bytes |
| `Edit.Editor.Load` | programs/edit.c:200-231 | the table of the file's text, or of its first 24064 bytes |
| `Edit.LoadedLines` | programs/edit.c:216-230 | of any text the table gets the first 120 bytes of each line, of the first 200 lines; text after the last newline is a line unless it is empty |
| `Edit.SplitText` | programs/edit.c:216-230 | the text of a table splits into the table |
| `Edit.LoadedBack` | programs/edit.c:207-230 | the table read from its own text is the same exactly under that condition |
| `Edit.LargestIsLost` | programs/edit.c:206-213 | the largest legal table does not come back |
| `Edit.OneDoubling` | kernel/core/ufs.c:318-329 | a write of at most a sector at the end of a full file doubles its capacity |
| `Edit.NewFileTakes` | kernel/core/ufs.c:318-363 | a new file takes at most 127 sectors for the largest table |
| `Edit.Editor.SaveAndLoad` | programs/edit.c:200-247 | succeeds exactly when there is room, and then loading gives the same table exactly when the text has at most 24064 bytes, or 24065 with a last line that is not empty |

## Left out

- Vmm.AddressSpaces.constructor: the boot tables are the ones of bootloader/bit32/init_pt.asm, with the user bit that `vmm_init` sets on the top-level entry.
- Boot.VmmInit: regions that end above 2^48 are excluded, since their addresses are not canonical.
- Stacks.AllocGuardedStack: the identity mapping of free frames is its precondition, which boot establishes (`Boot.BootMemoryManagers`) and which it keeps; the initial register frame written on the stack is not modelled.
- Elf.ElfLoad: bytes already loaded are lost only to a later segment on the same page; the last one wins, as in the code.
- Heap.KernelHeap.Kmalloc: payload bytes are not modelled; what is proved is that headers are never written into them. Alignment is not claimed.
- Lang.Interpreter.Assign: the crash of `let` on a full variable table is a failure here.
- Lang.Expr: values are unbounded integers, so 64-bit overflow is not modelled.
- Image.Build: exceptions are a failed result.
- Edit.Editor.Save: the user owns the file and has a free descriptor; permission bits of other users are not modelled.
- Lifetimes.TouchPage: pages of a process are mapped by the fault handler's code; the loader's variant, which can lose a frame, is in `Elf.ProgramLifetime`.
- TLB contents and `invlpg`, accessed and dirty bits, non-canonical addresses.
- The memory map as read from the BIOS: `Init` takes its regions as a parameter.
- Registration of growable stacks through the heap: the regions are a parameter.
- Statements of the script language other than assignment (`exec_line`, `run_script`), and the editor's screen.
- Crash consistency of UFS: directory and superblock are separate writes.
- Disk errors inside the disk: sector accesses in range succeed.
- Console, keyboard and memory files behind descriptors; file cursors in the state machine stay as opened.
- Address spaces, stacks and user ids of threads in the state machine; failing allocations there are inputs.
- Wrap-around of process ids, and channels of pipes are taken to differ from small numbers.
- Wakeup claims for `sched_wait` and for reading the keyboard, whose check and sleep are two steps in kernel threads.
- memfs, users, shells, drivers, descriptor tables of the processor, the bootloader: simpler or hardware.
