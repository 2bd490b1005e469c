# A verified model of the segmented operating system

The repository is a small operating system made of processes that talk over sockets. This project models its
three hard parts and proves what they are for.

**Kernel memory** keeps a sorted free list, one segment table per process, a chain of memory sticks that stand
for one physical memory, and a pool of swap blocks. `Holes`, `Sticks` and `SwapFiles` hold the lists, buffers and
the block file as classes that are edited in place. `Memory` states what each operation promises as a relation
between states, `Partitions`, `Compaction`, `SwapSpace` and `Kernel` prove the invariant of every operation and of
every run, and `KernelMemories` has one method per handler, with the program's loops, each proved to do exactly what
its relation says. `Isolation` proves that nobody notices what is done for others, and `Answers` what each request
answers and leaves of tables, holes, blocks and registers.

**The CPU** runs a register machine over that memory. `Cpus` has the loop, the MMU and the instructions as methods
over mutable registers; the context crosses a byte channel (`Wire`). `Machines` states the same instructions twice,
over physical memory and over the logical memory a process sees, and proves that the first refine the second.
`Instructions` says what each instruction does, of the registers it reads and writes and the process's own bytes alone.
`Transparency` concludes that preemption, compaction and swapping cannot be observed, over whole programs as far as
their system calls hand the process back as it was.

**The kernel scheduler** keeps ready queues per priority, running processes and their CPUs, and mutexes that lend
priority to their owners. `Scheduling` says what each event does, `Soundness` what holds between events, `MutexLaws`
and `Inheritance` what locks, hand-overs and releases keep, `SchedRuns` and `Fairness` what follows for whole runs,
`Exclusion` that one process at a time has a mutex, `Lives` which events change the state, the CPU and the requests of a
process, `Turns` the order inside the ready queues, `Dispatch` who runs and who is preempted, `Marks` what becomes of
interruption marks, `Misuse` exactly when misuse does harm; `Schedulers` is the class whose methods are the program's
functions and handlers.

Where a property fails, the condition is exact and a state that shows the failure is given: in `Witnesses` for memory
and the CPU, from states that runs reach, and in `Misuse` and `Marks` for the scheduler.

Main results, each for all inputs or all runs:

- Holes and segments partition memory, and swap blocks are in one place each, in every reachable state
  (`Kernel.RunKeepsInv`). The exceptions are a suspension or a resumption that fails half way, a segment of 0 bytes
  and a process number used twice: `SwapSpace.SuspendKeepsInvIff`, `SwapSpace.ResumeKeepsInvIff`,
  `Kernel.AllocKeepsInvIff` and `Kernel.CreateKeepsInvIff` say exactly when.
- MEM_ALLOC fails only when the process is unknown, the size is above the maximum or memory is full; the error after
  compaction is unreachable but for a request of 0 bytes of a full memory (`Kernel.AllocComplete`).
- Any number of sticks reads and writes like one flat memory (`Sticks.StickBank.Read`, `Sticks.StickBank.Write`).
- After `n` instructions a process has the registers, the outcome and the logical memory of a machine without
  addresses, interrupts, compaction or swap (`Transparency.Transparent`, `Transparency.Unobservable`), and goes on after
  each system call that leaves it unchanged. The one exception, a STDIN or STDOUT whose physical address reads as
  negative, is stated exactly (`Machines.StepRefinesIff`); there compaction does show (`Witnesses.CompactionShows`), and
  it takes more than 2 GiB of memory and segment together (`Machines.SmallMemoryNeverNegative`).
- A STDIN or STDOUT range lies in its segment exactly when a 32-bit sum does not wrap (`Machines.StreamInsideIff`).
- Ready queues agree with priorities, tokens with queues, running processes with CPUs, and mutexes are granted in the
  order they were asked for, over every run (`Fairness.RunSound`). A lock of a mutex that does not exist is the exception
  (`SchedRuns.LockSoundIff`), and so is an unlock, by someone else, that changes the priority its owner is queued at
  (`Misuse.UnlockSoundIff`).
- The owner of a mutex is, in every reachable state, who was granted it last and has not let go; between two grants it
  was let go (`Exclusion.RunExclusive`, `Exclusion.GrantedOneAtATime`).
- Of two processes in the ready queues the one ahead is taken first, in every run, unless the other is lent priority
  (`Turns.NeverOvertaken`); with one queue a process is taken after just those before it (`Turns.TurnComes`).
- A process that called for IO is blocked until its answer comes, and for ever when no interface serves it
  (`Lives.BlockedUntilAnswered`); the state of a process changes for the reasons `Lives.LifeLaw` lists and no others.
- Every instruction does what its law says (`Instructions.RegisterLaw` and those beside it), and a counting loop counts,
  whatever interrupts it (`Instructions.CountsDownAnywhere`).
- The marks of a CPU are those made less its stops, in every run (`Marks.MarksBalance`).
- The first tick of a process on a CPU evicts it exactly when the CPU came to it marked, perhaps for a process that is
  gone, or was marked since (`Marks.EvictedIff`).
- Every process runs at the least of its own priority and its waiters' (`Fairness.RunInherits`), and a lock keeps it so
  exactly when the priority it lends need not travel to an owner's owner (`Inheritance.LockInheritsIff`).

## Model
| member | source | states |
|---|---|---|
| `Holes.HoleList.Merge` | kernel_memory/src/kernelmemory.c:90-105 | from any list whose sorting does not overlap, the result is sorted, nonempty and non-touching, with the same addresses; the loop ends |
| `Holes.HoleList.Select` | kernel_memory/src/kernelmemory.c:110-129 | the first of the smallest (best fit) or largest (worst fit) holes that fit; nothing only when none fits |
| `Holes.HoleList.Take` | kernel_memory/src/kernelmemory.c:134-147 | the low part of the hole is given; the hole shrinks or disappears |
| `Holes.HoleList.Release` | kernel_memory/src/kernelmemory.c:150-159 | the free addresses are the old ones and those of the segment, in canonical form |
| `Holes.HoleList.Total` | kernel_memory/src/kernelmemory.c:162-170 | the sum of the sizes |
| `Holes.AppendSorts` | kernel_memory/src/kernelmemory.c:90-92 | a disjoint hole put at the end of the list is sorted in without overlap, and adds just its addresses |
| `Holes.FuseAddresses` | kernel_memory/src/kernelmemory.c:97-100 | fusing two touching holes keeps the set of free addresses |
| `Holes.CanonicalUnique` | kernel_memory/src/kernelmemory.c:90-105 | a set of free addresses has only one canonical list |
| `Holes.TotalSizeCounts` | kernel_memory/src/kernelmemory.c:162-170 | the sizes of an ordered list add up to the number of free addresses |
| `Holes.OccupyTakes` | kernel_memory/src/kernelmemory.c:134-147 | taking part of a hole removes exactly the addresses taken and keeps the list canonical |
| `Holes.OccupyReleaseUndo` | kernel_memory/src/kernelmemory.c:723-736 | taking a hole and giving it back, as for an unknown process, leaves the very same list |
| `Sticks.MemoryStick.Read` | memory_stick/src/memory_stick.c:21-33 | the bytes of the range, or an error exactly when it leaves the stick |
| `Sticks.MemoryStick.Write` | memory_stick/src/memory_stick.c:7-19 | the range holds the data and nothing else changed, or an error exactly when it leaves the stick |
| `Sticks.StickBank.Connect` | kernel_memory/src/kernelmemory.c:1070-1092 | the new stick continues the flat memory where it ended |
| `Sticks.StickBank.Locate` | kernel_memory/src/kernelmemory.c:206-213 | a stick is found exactly for addresses inside memory, and it holds the address |
| `Sticks.StickBank.ReadChunk` | kernel_memory/src/kernelmemory.c:215-235 | a request to one stick passes that stick's own bounds check and brings its part of the flat memory |
| `Sticks.StickBank.Read` | kernel_memory/src/kernelmemory.c:198-241 | a slice of the flat memory; an error exactly when a nonempty range leaves it; the loop ends |
| `Sticks.StickBank.WriteNext` | kernel_memory/src/kernelmemory.c:250-276 | one turn stores a nonempty part of the data, or finds that memory has ended |
| `Sticks.StickBank.Write` | kernel_memory/src/kernelmemory.c:243-280 | the flat memory is overwritten up to its end; an error exactly when a nonempty range leaves it |
| `SwapFiles.BlockInside` | swap/src/swap.c:36-48 | a block number is below the number of whole blocks exactly when all its bytes are in the file |
| `SwapFiles.PwriteBlock` | swap/src/swap.c:43-48 | writing a block changes that block and no other |
| `SwapFiles.SwapFile.ReadBlock` | swap/src/swap.c:36-41 | the block, or an error exactly when it is not whole in the file |
| `SwapFiles.SwapFile.WriteBlock` | swap/src/swap.c:43-48 | the file with that block replaced |
| `Partitions.PlacedPartition` | kernel_memory/src/kernelmemory.c:723-742 | a segment put in a chosen hole keeps holes and segments a partition of memory |
| `Partitions.FreedPartition` | kernel_memory/src/kernelmemory.c:762-779 | removing one table entry and releasing it keeps the partition |
| `Partitions.ClearedPartition` | kernel_memory/src/kernelmemory.c:837-842 | releasing a whole table keeps the partition |
| `Partitions.GrownPartition` | kernel_memory/src/kernelmemory.c:1079-1092 | a new stick keeps the partition |
| `Compaction.Accounting` | kernel_memory/src/kernelmemory.c:385-418 | segment sizes and hole sizes add up to all of memory |
| `Compaction.PackedApart` | kernel_memory/src/kernelmemory.c:387-398 | packed segments do not overlap and keep their order |
| `Compaction.CompactedPartition` | kernel_memory/src/kernelmemory.c:375-418 | after compaction holes and segments partition memory again |
| `Compaction.CompactedFree` | kernel_memory/src/kernelmemory.c:403-418 | at most one hole is left, at the top, as large as the old total free |
| `Compaction.SlidesDown` | kernel_memory/src/kernelmemory.c:387-398 | no segment moves up |
| `Compaction.OrderKept` | kernel_memory/src/kernelmemory.c:383-398 | two segments are in the same address order before and after |
| `Compaction.CompactedImages` | kernel_memory/src/kernelmemory.c:375-418 | every process sees the same ids, sizes and bytes |
| `Refinement.SortEnumerates` | kernel_memory/src/kernelmemory.c:362-383 | the sorted list names every segment of every process once, in strict address order |
| `Refinement.SlideRoom` | kernel_memory/src/kernelmemory.c:386-398 | a segment's new place ends no later than its old one and no later than where any later segment begins, and no earlier than the places already packed |
| `Refinement.SlideOne` | kernel_memory/src/kernelmemory.c:387-398 | one turn packs one more segment with its bytes, and leaves the rest of memory above as it was |
| `Refinement.SlidAll` | kernel_memory/src/kernelmemory.c:385-418 | the last turn leaves memory compacted |
| `SwapSpace.TakenConserved` | kernel_memory/src/kernelmemory.c:430-445 | blocks assigned to a process are still in exactly one place each |
| `SwapSpace.ReturnedConserved` | kernel_memory/src/kernelmemory.c:449-459 | blocks given back are still in exactly one place each |
| `SwapSpace.SuspendedInv` | kernel_memory/src/kernelmemory.c:881-938 | a complete suspension keeps the whole invariant, one block per started block of bytes |
| `SwapSpace.SuspendedImages` | kernel_memory/src/kernelmemory.c:881-938 | the process's segments are in swap with their ids, order and bytes; every other process sees no change |
| `SwapSpace.PlaceAllTakes` | kernel_memory/src/kernelmemory.c:970-981 | the places chosen one after the other are free addresses, and only they are taken |
| `SwapSpace.ResumedInv` | kernel_memory/src/kernelmemory.c:970-1027 | a complete resumption keeps the whole invariant |
| `SwapSpace.ResumedImages` | kernel_memory/src/kernelmemory.c:970-1027 | the segments are back with their ids, order and bytes; every other process sees no change |
| `SwapSpace.SuspendResumeRoundTrip` | kernel_memory/src/kernelmemory.c:856-1031 | suspend and later resume restore every id, size, order and byte, whatever the rest of the machine did meanwhile |
| `SwapSpace.SuspendKeepsInvIff` | kernel_memory/src/kernelmemory.c:881-931 | a suspension leaves a sound state exactly when all segments fit in free swap, or not even the first does |
| `SwapSpace.ResumeKeepsInvIff` | kernel_memory/src/kernelmemory.c:970-1019 | a resumption leaves a sound state exactly when all segments find a hole in turn, or not even the first does |
| `Kernel.AllocComplete` | kernel_memory/src/kernelmemory.c:678-747 | MEM_ALLOC succeeds exactly for a known process, a size within the maximum and at least that much free in all, and something free even for 0 bytes |
| `Kernel.AllocatedInv` | kernel_memory/src/kernelmemory.c:671-748 | allocation keeps the invariant on every path, compaction included |
| `Kernel.AllocKeepsInvIff` | kernel_memory/src/kernelmemory.c:671-748 | a request of a known process leaves a sound state exactly unless it makes a segment of 0 bytes |
| `Kernel.FreedInv` | kernel_memory/src/kernelmemory.c:750-785 | MEM_FREE keeps the invariant |
| `Kernel.FinalizedInv` | kernel_memory/src/kernelmemory.c:823-849 | the end of a process keeps the invariant: its memory and its swap blocks are free again |
| `Kernel.CreateKeepsInvIff` | kernel_memory/src/kernelmemory.c:559-595 | a new process leaves a sound state exactly when its number is new, or the process replaced owns neither memory nor swap |
| `Kernel.SwapConnectedInv` | kernel_memory/src/kernelmemory.c:1044-1062 | connecting swap keeps the invariant: all its blocks are free |
| `Kernel.StepKeepsInv` | kernel_memory/src/kernelmemory.c:559-1092 | every operation keeps the invariant |
| `Kernel.RunKeepsInv` | kernel_memory/src/kernelmemory.c:559-1092 | the invariant holds in every state of every run |
| `Isolation.AllocatedImages` | kernel_memory/src/kernelmemory.c:671-748 | the caller's memory gains one segment at the end; a failure, and any other process, sees no change |
| `Isolation.FreedImages` | kernel_memory/src/kernelmemory.c:762-779 | the caller loses its first segment with that id and nothing else; others see no change |
| `Isolation.StepIsolates` | kernel_memory/src/kernelmemory.c:559-1092 | registers, program and logical memory of a process change only through operations that concern it |
| `Isolation.SuspendFailsClean` | kernel_memory/src/kernelmemory.c:885-931 | a suspension that fails at its first segment changes nothing |
| `Isolation.TranslateInsideIff` | cpu/src/ciclo.c:35-56 | a translated range lies in the process's own segment exactly when the 32-bit sum did not wrap |
| `Isolation.TranslateWraps` | cpu/src/ciclo.c:51-53 | a range of 4 GiB less 1 bytes passes the limit check of a 16-byte segment |
| `Isolation.TranslateInjective` | cpu/src/ciclo.c:35-56 | bytes translate into memory, and two translations meet only for the same process and the same logical address |
| `Transfers.ChunkPadded` | kernel_memory/src/kernelmemory.c:899-906 | the buffer filled for a block is that part of the segment, padded with zeros |
| `Transfers.ChunksRoundTrip` | kernel_memory/src/kernelmemory.c:883-912 | cut into blocks and read back, a segment has the bytes it had; the padding is not seen |
| `Transfers.SavedNext` | kernel_memory/src/kernelmemory.c:881-924 | one turn of the suspension loop saves one more segment and disturbs none saved before |
| `Transfers.RunsOut` | kernel_memory/src/kernelmemory.c:885-931 | when swap runs out the blocks are given back but the memory released so far is not |
| `Transfers.PrefixNext` | kernel_memory/src/kernelmemory.c:984-995 | the part stored from each block continues the bytes stored already |
| `Transfers.LoadNext` | kernel_memory/src/kernelmemory.c:970-1007 | one turn of the resumption loop loads one more segment and disturbs none loaded before |
| `Transfers.PlacedGivenBack` | kernel_memory/src/kernelmemory.c:1009-1015 | giving back the segments placed so far restores the very free list the resumption began with |
| `Transfers.LoadStops` | kernel_memory/src/kernelmemory.c:974-1019 | a resumption that finds no hole gives memory back but leaves the returned blocks in the records |
| `Answers.ProcessLaw` | kernel_memory/src/kernelmemory.c:559-849 | a process is there from its creation to its end, and no other request makes or ends one |
| `Answers.ContextLaw` | kernel_memory/src/kernelmemory.c:559-1092 | the registers kept of a process change only where a CPU stores them, and its program never does |
| `Answers.FitLaw` | kernel_memory/src/kernelmemory.c:110-147 | while a hole is large enough, the new segment is last in its table, at the start of a smallest (best fit) or largest (worst fit) such hole, the lowest of equal ones, and nothing moves |
| `Answers.CompactedLaw` | kernel_memory/src/kernelmemory.c:689-742 | otherwise, when all holes together are large enough, memory is compacted and the segment is right above everything else |
| `Answers.FreeLaw` | kernel_memory/src/kernelmemory.c:750-785 | yes exactly when the process has a segment of that id; the first such leaves the table and its addresses, no others, become free |
| `Answers.FinalizeLaw` | kernel_memory/src/kernelmemory.c:823-849 | the process is gone, all its memory and its swap blocks are free, and nobody else loses anything |
| `Answers.SuspendLaw` | kernel_memory/src/kernelmemory.c:856-945 | yes exactly when swap has as many free blocks as the segments take, each rounded up; then the table is empty with one new record for each segment, otherwise tables and records are as they were |
| `Answers.SuspendStops` | kernel_memory/src/kernelmemory.c:885-931 | a failed suspension has freed the memory of exactly the segments swap had room for, and swap has the free blocks it had |
| `Answers.PlacedInTurn` | kernel_memory/src/kernelmemory.c:970-981 | each suspended segment goes to the hole the strategy asks for among what is free then, until one finds none |
| `Answers.ResumeLaw` | kernel_memory/src/kernelmemory.c:950-1031 | yes exactly when each segment found a hole in turn; then they follow the others in the table in their order and no record is left, otherwise tables and holes are as they were; and which blocks are given back |
| `KernelMemories.KernelMemory.constructor` | kernel_memory/src/kernelmemory.c:40-54 | memory starts empty and sound |
| `KernelMemories.KernelMemory.CreateProcess` | kernel_memory/src/kernelmemory.c:559-595 | a process with reset registers, empty tables and its program, in the place of any that had its number; nothing when the program cannot be read; and when the invariant survives |
| `KernelMemories.KernelMemory.ConnectMemory` | kernel_memory/src/kernelmemory.c:1070-1098 | memory grows by the stick, all of it free |
| `KernelMemories.KernelMemory.ConnectSwapModule` | kernel_memory/src/kernelmemory.c:1043-1066 | every whole block of the file is in the free list |
| `KernelMemories.KernelMemory.LoadContext` | kernel_memory/src/kernelmemory.c:626-646 | the stored registers and table, or an error for an unknown process |
| `KernelMemories.KernelMemory.StoreBack` | kernel_memory/src/kernelmemory.c:648-669 | the registers and table are stored; an error for an unknown process |
| `KernelMemories.KernelMemory.FetchInstruction` | kernel_memory/src/kernelmemory.c:597-624 | the instruction at that counter, or an error outside the program |
| `KernelMemories.KernelMemory.MemRead` | kernel_memory/src/kernelmemory.c:787-804 | the slice of physical memory, or an error |
| `KernelMemories.KernelMemory.MemWrite` | kernel_memory/src/kernelmemory.c:806-821 | the slice of physical memory is replaced, or an error; the invariant stays |
| `KernelMemories.KernelMemory.ReleaseSegment` | kernel_memory/src/kernelmemory.c:150-159 | the segment is free and nothing else of the state changed |
| `KernelMemories.KernelMemory.MemFree` | kernel_memory/src/kernelmemory.c:750-785 | the first segment with that id is out of the table and free, or an error |
| `KernelMemories.KernelMemory.CollectSegments` | kernel_memory/src/kernelmemory.c:362-381 | every segment of every process once, in any order of the dictionary |
| `KernelMemories.KernelMemory.MoveSegment` | kernel_memory/src/kernelmemory.c:387-398 | one segment is copied down and its base updated in its table |
| `KernelMemories.KernelMemory.SlideAll` | kernel_memory/src/kernelmemory.c:385-399 | all segments packed in order, each with its bytes |
| `KernelMemories.KernelMemory.ResetHoles` | kernel_memory/src/kernelmemory.c:403-418 | one hole above the last segment, or none |
| `KernelMemories.KernelMemory.Compact` | kernel_memory/src/kernelmemory.c:375-425 | memory is compacted and sound |
| `KernelMemories.KernelMemory.Place` | kernel_memory/src/kernelmemory.c:723-747 | the chosen hole gives the segment; for an unknown process nothing changes |
| `KernelMemories.KernelMemory.AddSegment` | kernel_memory/src/kernelmemory.c:736-742 | the segment is last in the table of its process and nothing else changed |
| `KernelMemories.KernelMemory.GiveBack` | kernel_memory/src/kernelmemory.c:726-732 | memory taken for a process that does not exist is released: the very same free list |
| `KernelMemories.KernelMemory.TryPlace` | kernel_memory/src/kernelmemory.c:686-742 | a segment is placed exactly when some hole fits |
| `KernelMemories.KernelMemory.MemAlloc` | kernel_memory/src/kernelmemory.c:671-748 | too large, placed, full, or compacted and placed: exactly what allocation promises, and the invariant |
| `KernelMemories.KernelMemory.ReleaseTable` | kernel_memory/src/kernelmemory.c:837-842 | the addresses of all the segments are free, in canonical form |
| `KernelMemories.KernelMemory.ReleaseBlocks` | kernel_memory/src/kernelmemory.c:449-459 | the blocks are at the end of the free list, in order |
| `KernelMemories.KernelMemory.ReturnBlocks` | kernel_memory/src/kernelmemory.c:520-525 | the blocks of all records are at the end of the free list, in order |
| `KernelMemories.KernelMemory.FinalizeProcess` | kernel_memory/src/kernelmemory.c:823-849 | the process is gone, its memory and blocks are free, the invariant stays |
| `KernelMemories.KernelMemory.AssignBlocks` | kernel_memory/src/kernelmemory.c:430-445 | the first blocks of the free list, or nothing when there are too few |
| `KernelMemories.KernelMemory.SaveBlock` | kernel_memory/src/kernelmemory.c:899-912 | one block holds its part of the segment, padded |
| `KernelMemories.KernelMemory.SaveSegment` | kernel_memory/src/kernelmemory.c:892-913 | the blocks hold the segment's bytes, and no other block changed |
| `KernelMemories.KernelMemory.SuspendSegment` | kernel_memory/src/kernelmemory.c:892-923 | the segment is in swap and its memory is free |
| `KernelMemories.KernelMemory.SuspendProcess` | kernel_memory/src/kernelmemory.c:856-945 | exactly what suspension does, failures included, and whether the invariant survives |
| `KernelMemories.KernelMemory.OccupyHole` | kernel_memory/src/kernelmemory.c:134-147 | the low part of the hole is taken and nothing else of the state changed |
| `KernelMemories.KernelMemory.LoadBlock` | kernel_memory/src/kernelmemory.c:984-995 | the block's part of the segment is in memory |
| `KernelMemories.KernelMemory.LoadSegment` | kernel_memory/src/kernelmemory.c:984-995 | memory holds, at the new base, the bytes kept in swap, and nothing else changed |
| `KernelMemories.KernelMemory.ResumeSegment` | kernel_memory/src/kernelmemory.c:981-1004 | the hole is taken, the bytes are there and the blocks are free |
| `KernelMemories.KernelMemory.ResumeProcess` | kernel_memory/src/kernelmemory.c:950-1031 | exactly what resumption does, failures included, and whether the invariant survives |
| `Isa.GetPut` | cpu/src/registros.c:4-31 | registers are independent cells; the one-byte ones keep the low byte |
| `Isa.ToFromBytes` | cpu/src/ciclo.c:208-250 | a register stored in memory and loaded back has the value it could hold |
| `Instructions.RegisterLaw` | cpu/src/ciclo.c:179-207 | NOOP, SET, SUM, SUB and JNZ, of registers read: the value the register can hold, the sum or difference in its width, a jump exactly when the register is not 0, the counter one further otherwise, and no other register |
| `Instructions.MovInLaw` | cpu/src/ciclo.c:208-230 | the register gets the one or four bytes at SI, low byte first; a range not in a segment is a fault |
| `Instructions.MovOutLaw` | cpu/src/ciclo.c:231-250 | the one or four bytes at DI become those of the register, low byte first, and no others change; a range not in a segment is a fault |
| `Instructions.CopyMemLaw` | cpu/src/ciclo.c:251-285 | as many bytes as the register says go from SI to DI, as they were before, or none and a fault |
| `Instructions.CallLaw` | cpu/src/ciclo.c:286-391 | a system call leaves memory and registers but for the counter, and says which call it is; STDIN and STDOUT fault exactly when the 32-bit end of their range is past the segment |
| `Instructions.FetchLaw` | cpu/src/ciclo.c:415-433 | the instruction executed is the one at the counter; past the end of the program there is none |
| `Instructions.EndStays` | cpu/src/ciclo.c:428-431 | after a fault or a failed fetch no more instructions are executed |
| `Instructions.FreshProcess` | kernel_memory/src/kernelmemory.c:56-66 | a new process reads 0 in every register, has no memory, and begins with instruction 0 of its program |
| `Instructions.CountsDown` | cpu/src/ciclo.c:194-207 | SUB and JNZ count a register down from n: after 2k instructions it has n - k, nothing else changed, and the loop ends after 2n |
| `Instructions.CountsDownAnywhere` | cpu/src/ciclo.c:394-447 | and so it ends in the real machine, whatever interrupts, compactions and suspensions come between |
| `Wire.RoundTrip` | utils/src/utils/conexion.c:99-154 | a context sent is the context received, and what follows it stays in the channel |
| `Wire.Layout` | utils/src/utils/conexion.c:99-124 | the message byte by byte: PC, AX to DX, EAX to EDX, SI, DI, the number of segments, and id, base and limit of each, low bytes first |
| `Wire.Channel.SendContext` | utils/src/utils/conexion.c:99-124 | the bytes sent are the encoding: registers, number of segments, then each segment |
| `Wire.Channel.ReceiveContext` | utils/src/utils/conexion.c:126-154 | exactly one context is taken from the channel and decoded |
| `Machines.TranslateLocates` | cpu/src/ciclo.c:35-56 | translation finds a range exactly where logical memory has it; where they differ the sum wrapped and no memory is large enough |
| `Machines.StoreSame` | cpu/src/ciclo.c:231-250 | a write inside a segment changes just those bytes of that segment |
| `Machines.LoadSame` | cpu/src/ciclo.c:208-229 | a read inside a segment brings those bytes of that segment |
| `Machines.MovInRefines` | cpu/src/ciclo.c:208-230 | MOV_IN is a logical load or a fault |
| `Machines.MovOutRefines` | cpu/src/ciclo.c:231-250 | MOV_OUT is a logical store or a fault |
| `Machines.CopyMemRefines` | cpu/src/ciclo.c:251-285 | COPY_MEM is a logical copy when both ranges lie in segments, and otherwise a fault that writes nothing |
| `Machines.StepRefinesIff` | cpu/src/ciclo.c:176-392 | an instruction does what the logical machine says exactly unless it is a STDIN or STDOUT that passes the checks with a physical address that reads as negative |
| `Machines.SmallMemoryNeverNegative` | cpu/src/ciclo.c:35-56 | no address reads as negative while memory and the maximum segment come to at most 2 GiB together |
| `Machines.StreamInsideIff` | cpu/src/ciclo.c:328-365 | the range of a STDIN or STDOUT that goes through lies in a segment of the process exactly when its 32-bit sum did not wrap |
| `Machines.RunRefines` | cpu/src/ciclo.c:414-444 | any number of turns of the cycle agree with the logical machine, as long as no address reads as negative |
| `Machines.StepWrites` | cpu/src/ciclo.c:231-285 | an instruction writes at most once, inside a segment of its own process |
| `Machines.ExecIsStep` | cpu/src/ciclo.c:176-392 | an instruction is, for kernel memory, a write that concerns no other process |
| `Machines.ExecIsolates` | cpu/src/ciclo.c:176-392 | no other process notices an instruction, and the invariant of memory survives it |
| `Transparency.OwnSuspended` | kernel_memory/src/kernelmemory.c:856-945 | suspension moves a process's memory to swap without changing it |
| `Transparency.OwnResumed` | kernel_memory/src/kernelmemory.c:950-1031 | resumption moves it back without changing it |
| `Transparency.ExecFollows` | cpu/src/ciclo.c:414-433 | one instruction of a loaded process, its address not negative, is one step of the logical machine, also where it ends the cycle |
| `Transparency.NextFollows` | cpu/src/ciclo.c:394-447 | loading, saving, the answer to a system call that changes nothing, and all the kernel does meanwhile leave the process where the logical machine is |
| `Transparency.CycleFollows` | cpu/src/ciclo.c:394-447 | a whole cycle of a CPU, from the stored context to the stored context, agrees with the logical machine as long as no address reads as negative |
| `Transparency.Transparent` | cpu/src/ciclo.c:394-447 | after n instructions, however interleaved and across system calls that change nothing, a process is where the logical machine is after n |
| `Transparency.Unobservable` | cpu/src/ciclo.c:394-447 | two runs with as many instructions end with the same registers and memory, and outcomes that differ at most in whether the last call has been answered, whatever interrupts, compactions and suspensions each had |
| `Witnesses.SuspensionBreaks` | kernel_memory/src/kernelmemory.c:881-931 | in a reachable state, two one-byte segments and one free block, a suspension fails half way and the invariant is lost |
| `Witnesses.ResumptionBreaks` | kernel_memory/src/kernelmemory.c:970-1019 | in a reachable state, two suspended one-byte segments and one hole, a resumption fails half way and the invariant is lost |
| `Witnesses.EmptySegmentBreaks` | kernel_memory/src/kernelmemory.c:719-742 | in a reachable state a request for 0 bytes is granted and the invariant is lost |
| `Witnesses.SecondProcessBreaks` | kernel_memory/src/kernelmemory.c:586-591 | in a reachable state a second process with the number of the first makes its memory unreachable |
| `Witnesses.CallsOutside` | cpu/src/ciclo.c:328-365 | in a reachable state a STDOUT goes through as a system call although its range is not in memory |
| `Witnesses.CompactionShows` | cpu/src/ciclo.c:35-56 | a reachable state and the same compacted, in which one STDOUT is a fault and a system call |
| `Cpus.Cpu.Mmu` | cpu/src/ciclo.c:35-56 | the search loop computes the translation: first segment with that number, 32-bit limit check, signed result |
| `Cpus.Cpu.Transmit` | utils/src/utils/conexion.c:99-154 | a context crosses an idle channel unchanged |
| `Cpus.Cpu.Save` | cpu/src/ciclo.c:124-135 | kernel memory holds this CPU's registers and table |
| `Cpus.Cpu.FetchData` | cpu/src/ciclo.c:63-77 | the bytes of physical memory, or an error |
| `Cpus.Cpu.StoreData` | cpu/src/ciclo.c:84-97 | physical memory holds the bytes, or an error |
| `Cpus.Cpu.MoveIn` | cpu/src/ciclo.c:208-230 | the effect of MOV_IN on registers and memory |
| `Cpus.Cpu.MoveOut` | cpu/src/ciclo.c:231-250 | the effect of MOV_OUT on registers and memory |
| `Cpus.Cpu.Copy` | cpu/src/ciclo.c:251-285 | the effect of COPY_MEM on registers and memory |
| `Cpus.Cpu.ComputeInPlace` | cpu/src/ciclo.c:180-207 | the effect of NOOP, SET, SUM, SUB and JNZ, with the counter advanced unless it was set |
| `Cpus.Cpu.Perform` | cpu/src/ciclo.c:176-391 | registers, memory and outcome of any instruction |
| `Cpus.Cpu.Execute` | cpu/src/ciclo.c:176-392 | the same, and the context saved exactly when the cycle ends with it |
| `Cpus.Cpu.Load` | cpu/src/ciclo.c:396-412 | the CPU has the stored registers and table; nothing for an unknown process |
| `Cpus.Cpu.Turn` | cpu/src/ciclo.c:415-433 | fetch and execute, or stop when there is no instruction |
| `Cpus.QuotaAt` | cpu/src/ciclo.c:437-443 | with k answers that say go on and then one that says stop, or none, k + 1 instructions are executed |
| `Cpus.Cpu.RunLoaded` | cpu/src/ciclo.c:414-444 | instructions are executed until the first interrupt, fault, system call or failed fetch, and the context is saved but for the last |
| `Cpus.Cpu.Cycle` | cpu/src/ciclo.c:394-447 | from the stored context to the stored context: so many turns as there are answers before the first interrupt |
| `Soundness.Leaves` | kernel_scheduler/src/scheduler.c:291-321 | a process that leaves its CPU is in no list, and its CPU is the only one in no list |
| `Soundness.Enters` | kernel_scheduler/src/scheduler.c:119-183 | a process in no list that becomes ready is in the queue of its priority, with its token |
| `Soundness.TakesBest` | kernel_scheduler/src/scheduler.c:215-233 | while there is a token there is a process, and the one taken has the best priority of all that are queued |
| `Turns.AddReadyJoins` | kernel_scheduler/src/scheduler.c:119-163 | a process that becomes ready is last in the queue of its priority, all others in their order, and interrupts the worst running process if that one is worse |
| `Turns.QueueLaw` | kernel_scheduler/src/scheduler.c:119-233 | every queue after every event: newcomers last in the order they came, only the dispatcher takes one, the first of the first nonempty queue, and only a loan of priority or an eviction for a compaction puts one in front |
| `Turns.StepPrecedes` | kernel_scheduler/src/scheduler.c:119-233 | who is in a better queue or ahead in the same one stays so through any event, unless it is taken or the other is lent priority |
| `Turns.NeverOvertaken` | kernel_scheduler/src/scheduler.c:119-233 | in every run, of two queued processes the one ahead is taken first, unless the other is lent priority |
| `Turns.TurnComes` | kernel_scheduler/src/scheduler.c:215-233 | with one queue, and nobody put in front, a process with k before it is taken next after k of them |
| `Turns.QueuedMeansToken` | kernel_scheduler/src/scheduler.c:119-233 | there is a token exactly while some process is queued |
| `Soundness.Assigns` | kernel_scheduler/src/planificador.c:131-143 | the process taken runs on exactly the CPU that was free |
| `Soundness.Blocks` | kernel_scheduler/src/IO_manager.c:307-334 | a blocked process is found again by the answer it waits for |
| `Lives.LifeLaw` | kernel_scheduler/src/planificador.c:108-544 | the state of every process after every event: ready when new, evicted, unlocking, starting a process, answered or first heir of a mutex let go; blocked when calling for IO or locking a busy mutex; running when dispatched; gone when it exits; and otherwise as it was |
| `Lives.RequestLaw` | kernel_scheduler/src/IO_manager.c:199-339 | a request is pending from the call an interface serves to its answer |
| `Lives.AnswerWakes` | kernel_scheduler/src/IO_manager.c:199-225 | the answer leaves its process ready, without a request, in the queue of its priority if there is one; nobody else is concerned |
| `Lives.PendingStays` | kernel_scheduler/src/IO_manager.c:199-225 | while no answer comes no event wakes the process |
| `Lives.StrandedStays` | kernel_scheduler/src/IO_manager.c:313-318 | a process that is blocked with no request and in no line for a mutex is so for ever |
| `Lives.IoCallBlocks` | kernel_scheduler/src/IO_manager.c:303-339 | the call blocks its process; it has a request exactly when an interface serves it |
| `Lives.BlockedUntilAnswered` | kernel_scheduler/src/IO_manager.c:199-339 | in every run the process is blocked until its answer comes, and for ever if no interface serves the call |
| `Lives.PriorityLaw` | kernel_scheduler/src/planificador.c:491-544 | an accepted process starts ready at the priority it was asked for, which stays its own; no other event makes one |
| `Lives.CpuLaw` | kernel_scheduler/src/planificador.c:42-143 | free CPUs are handed out in the order they became free, and each event frees exactly the CPU of the process it takes off |
| `Lives.PairLaw` | kernel_scheduler/src/planificador.c:131-143 | a process is on the CPU it was given until it stops running |
| `Lives.RunningLaw` | kernel_scheduler/src/scheduler.c:291-321 | the running list keeps its order: who stops leaves it, who starts or has been answered by kernel memory comes last |
| `Lives.BlockedLaw` | kernel_scheduler/src/IO_manager.c:205-213 | who starts to wait comes last in the list of the blocked, and only an answer takes one off |
| `MutexLaws.NeededMeets` | kernel_scheduler/src/mutex_manager.c:127-154 | the loop's result is the least of the process's own priority and those of all its waiters |
| `MutexLaws.QueueMoves` | kernel_scheduler/src/mutex_manager.c:91-104 | a boosted process that is queued is at the front of the queue of its new priority, with the token it had |
| `MutexLaws.WaitingSound` | kernel_scheduler/src/mutex_manager.c:88-112 | blocking on a mutex keeps queues, CPUs and mutexes sound |
| `MutexLaws.HandOverSound` | kernel_scheduler/src/mutex_manager.c:189-216 | a hand-over keeps them sound: the first waiter owns the mutex and is queued at its inherited priority |
| `MutexLaws.UnlockSound` | kernel_scheduler/src/mutex_manager.c:158-230 | an unlock by the owner keeps them sound |
| `MutexLaws.OwnedNamesExact` | kernel_scheduler/src/mutex_manager.c:291-306 | the names collected are exactly those of the mutexes owned, each once |
| `MutexLaws.UnlockAllSound` | kernel_scheduler/src/mutex_manager.c:310-313 | unlocking by name reaches each mutex collected and no other |
| `MutexLaws.ExitSound` | kernel_scheduler/src/planificador.c:424-467 | after EXIT the process is gone and owns nothing, each mutex it owned is free or its first waiter's, all others are as they were, and the scheduler is sound |
| `Inheritance.WaitingInheritsIff` | kernel_scheduler/src/mutex_manager.c:88-106 | a boost keeps inheritance right exactly when it does not have to reach an owner's owner |
| `Inheritance.LockInheritsIff` | kernel_scheduler/src/mutex_manager.c:66-115 | a lock keeps inheritance exactly unless the owner waits for a process of worse priority than the caller's |
| `Inheritance.HandOverInherits` | kernel_scheduler/src/mutex_manager.c:192-208 | after a hand-over everyone but the old owner inherits rightly |
| `Inheritance.RestoreInherits` | kernel_scheduler/src/mutex_manager.c:223-228 | restoring the old owner makes inheritance right for everyone |
| `Inheritance.UnlockInherits` | kernel_scheduler/src/mutex_manager.c:158-230 | an unlock by the owner keeps inheritance |
| `Inheritance.ExitInherits` | kernel_scheduler/src/mutex_manager.c:287-314 | the end of a process keeps inheritance for everyone else |
| `SchedRuns.LockSoundIff` | kernel_scheduler/src/mutex_manager.c:234-259 | a lock leaves the scheduler sound exactly when the mutex exists; otherwise a CPU is both free and running |
| `SchedRuns.TickSound` | kernel_scheduler/src/planificador.c:229-263 | an eviction, for a quantum, a better process or a compaction, keeps the scheduler sound |
| `SchedRuns.MemorySound` | kernel_scheduler/src/planificador.c:326-422 | MEM_ALLOC and MEM_FREE leave the process running on its CPU |
| `SchedRuns.IoCallSound` | kernel_scheduler/src/IO_manager.c:303-339 | a system call for IO keeps the scheduler sound |
| `SchedRuns.IoEndSound` | kernel_scheduler/src/IO_manager.c:202-215 | the answer finds its process in the list of the blocked, and keeps the scheduler sound |
| `SchedRuns.InitSound` | kernel_scheduler/src/planificador.c:470-544 | INIT_PROC keeps the scheduler sound, whether or not the new process is accepted |
| `SchedRuns.StepSound` | kernel_scheduler/src/planificador.c:108-544 | every event keeps the scheduler sound |
| `SchedRuns.StepInherits` | kernel_scheduler/src/mutex_manager.c:66-314 | every event keeps inheritance, but for the lock that would have to lend further |
| `Fairness.StepFifo` | kernel_scheduler/src/mutex_manager.c:66-230 | every event keeps: requests for a mutex are its grants and then its waiters, in order |
| `Exclusion.MutexLaw` | kernel_scheduler/src/mutex_manager.c:20-314 | every mutex after every event: a free one goes to who locks it, a busy one gets the caller last in line, who lets go hands it to the first in line or frees it, a new one is nobody's, and all others are as they were |
| `Exclusion.LockAnswers` | kernel_scheduler/src/mutex_manager.c:66-115 | MUTEX_LOCK says yes exactly when the mutex exists and nobody has it; then the caller has it |
| `Exclusion.StepExclusive` | kernel_scheduler/src/mutex_manager.c:66-230 | no event grants a mutex someone has, and only who has it lets go |
| `Exclusion.RunExclusive` | kernel_scheduler/src/mutex_manager.c:66-230 | in every reachable state the owner of each mutex is who was granted it last and has not let go |
| `Exclusion.GrantedOneAtATime` | kernel_scheduler/src/mutex_manager.c:66-230 | between two grants of a mutex, in any run, the first process let go of it |
| `Fairness.RunSound` | kernel_scheduler/src/planificador.c:108-544 | both hold in every state of every run |
| `Fairness.RunInherits` | kernel_scheduler/src/mutex_manager.c:66-230 | while no lock would have to lend further, every process has the priority its waiters call for |
| `Misuse.UnlockSoundIff` | kernel_scheduler/src/mutex_manager.c:158-285 | an unlock by anyone leaves the scheduler sound exactly unless, in the state before it, the owner is queued, or is about to be as the first to wait for its own mutex, at a priority that is not the one due to it without this mutex |
| `Misuse.MisfilesExact` | kernel_scheduler/src/mutex_manager.c:158-230 | that condition on the state before the call is the one in the middle of it: the mutex passed on, the old owner queued at a priority not its due |
| `Misuse.OwnersUnlockFine` | kernel_scheduler/src/mutex_manager.c:158-230 | the unlock of the owner itself never meets it |
| `Misuse.UnlockMisfiles` | kernel_scheduler/src/mutex_manager.c:223-228 | a sound state with right inheritance in which an unlock by someone else leaves the owner in the queue of a priority it no longer has |
| `Misuse.LockLosesCpu` | kernel_scheduler/src/mutex_manager.c:234-259 | a reachable state in which the lock of a mutex that does not exist leaves a CPU both free and running |
| `Misuse.BoostStops` | kernel_scheduler/src/mutex_manager.c:91-96 | a sound state in which a lock leaves an owner's owner without the priority it should inherit |
| `Dispatch.WorstFound` | kernel_scheduler/src/scheduler.c:139-151 | the loop finds the first of the worst running processes, if one is worse than the new one |
| `Dispatch.PreemptsWorst` | kernel_scheduler/src/scheduler.c:139-162 | a process that becomes ready marks exactly one CPU, that of the worst running process, exactly when some running process is worse |
| `Marks.MarkStays` | kernel_scheduler/src/planificador.c:208-227 | no event of a run but a tick of that CPU takes a mark away |
| `Marks.MarkedSince` | kernel_scheduler/src/planificador.c:611-621 | between two of its ticks a CPU is marked exactly when it was marked before, or some event has marked it since |
| `Marks.TickEvictsIff` | kernel_scheduler/src/planificador.c:229-263 | a tick takes the process off its CPU exactly when the CPU is marked |
| `Marks.EvictedIff` | kernel_scheduler/src/planificador.c:131-263 | the first tick of a process on a CPU evicts it exactly when the CPU was marked before the process came, or has been marked since |
| `Marks.MarkLaw` | kernel_scheduler/src/planificador.c:208-263 | the marks of each CPU after any event: those it had and those made, less the one its own stop uses up |
| `Marks.MarksBalance` | kernel_scheduler/src/planificador.c:208-263 | in every run, marks at the end and stops together are marks at the start and marks made |
| `Marks.MarkStrikesAnother` | kernel_scheduler/src/scheduler.c:153-158 | a mark made for one process evicts the next one on that CPU, which has the better priority |
| `Dispatch.CpusCounted` | kernel_scheduler/src/planificador.c:42-143 | connected CPUs are the free ones and those with a process, and there are as many running processes as pairs |
| `Dispatch.OnePlace` | kernel_scheduler/src/scheduler.c:119-336 | no process is in two of: one ready queue, the dispatcher's hand, one CPU, a pending request |
| `Schedulers.Scheduler.constructor` | kernel_scheduler/src/scheduler.c:58-80 | empty queues, sound |
| `Schedulers.Scheduler.WorstRunning` | kernel_scheduler/src/scheduler.c:143-151 | the loop over running processes computes the worst candidate |
| `Schedulers.Scheduler.AddToReady` | kernel_scheduler/src/scheduler.c:119-163 | last in its queue with a token, the queue as it was before it, and the worst running process marked |
| `Schedulers.Scheduler.AddToFront` | kernel_scheduler/src/scheduler.c:165-183 | first in its queue with a token |
| `Schedulers.Scheduler.TakeFromReady` | kernel_scheduler/src/scheduler.c:198-213 | out of the first queue that holds it, the token kept |
| `Schedulers.Scheduler.Reinsert` | kernel_scheduler/src/scheduler.c:185-196 | first in its queue, no token given |
| `Schedulers.Scheduler.RemoveFromExec` | kernel_scheduler/src/scheduler.c:291-321 | out of the running list and, if it was there, its first pair with it |
| `Schedulers.Scheduler.ChangeStatus` | kernel_scheduler/src/procesos.c:163-171 | only the state of that process changes |
| `Schedulers.Scheduler.AddFreeCpu` | kernel_scheduler/src/planificador.c:42-53 | the CPU is last in the free queue |
| `Schedulers.Scheduler.TakeNext` | kernel_scheduler/src/scheduler.c:215-233 | a process is always found, out of the first nonempty queue, and one token with it |
| `Schedulers.Scheduler.DispatchTo` | kernel_scheduler/src/planificador.c:131-143 | the process taken runs on the first free CPU |
| `Schedulers.Scheduler.HandleTick` | kernel_scheduler/src/planificador.c:208-263 | the CPU stops exactly when it was marked, which uses one mark up; then its process is queued, first if memory is being compacted |
| `Schedulers.Scheduler.Lookup` | kernel_scheduler/src/mutex_manager.c:47-62 | the first mutex with that name |
| `Schedulers.Scheduler.HandleMutexCreate` | kernel_scheduler/src/mutex_manager.c:20-43 | a mutex of that name exists; a new one is nobody's, and one that existed is kept as it was |
| `Schedulers.Scheduler.Boost` | kernel_scheduler/src/mutex_manager.c:91-104 | the owner has the new priority and, if queued, is first in the queue it now belongs to |
| `Schedulers.Scheduler.LockMutex` | kernel_scheduler/src/mutex_manager.c:66-115 | owned at once, or waiting at the end of the line with the owner boosted and the caller blocked |
| `Schedulers.Scheduler.WaitFor` | kernel_scheduler/src/mutex_manager.c:88-113 | at the end of the line, the owner boosted if it is worse, the caller off its CPU and blocked |
| `Schedulers.Scheduler.HandleMutexLock` | kernel_scheduler/src/mutex_manager.c:234-259 | yes exactly when the mutex exists and nobody has it, and then the caller has it; otherwise the CPU is given back; and when soundness and inheritance survive |
| `Schedulers.Scheduler.NeededPriority` | kernel_scheduler/src/mutex_manager.c:127-154 | the least of the process's own priority and those of its waiters |
| `Schedulers.Scheduler.HandOver` | kernel_scheduler/src/mutex_manager.c:189-216 | the first waiter owns the mutex, inherits from the rest of the line and is ready |
| `Schedulers.Scheduler.UnlockMutex` | kernel_scheduler/src/mutex_manager.c:158-230 | freed or handed over, and the old owner's priority computed anew |
| `Schedulers.Scheduler.HandleMutexUnlock` | kernel_scheduler/src/mutex_manager.c:263-285 | the same with the caller queued and its CPU free; exactly when it is sound, and inheriting when the caller is the owner |
| `Schedulers.Scheduler.HandleMemoryCall` | kernel_scheduler/src/planificador.c:326-422 | the process is last in the running list, on the same CPU |
| `Schedulers.Scheduler.HandleIoCall` | kernel_scheduler/src/IO_manager.c:303-339 | the process is blocked, its CPU free, its request pending if an interface serves it, and otherwise nothing is left that could wake it |
| `Schedulers.Scheduler.HandleIoEnd` | kernel_scheduler/src/IO_manager.c:199-225 | the process is out of the blocked list, ready and in the queue of its priority, and its request is gone |
| `Schedulers.Scheduler.CreateProcess` | kernel_scheduler/src/planificador.c:491-544 | a new number is used; if kernel memory accepts it the process is ready at the priority asked for, and queued |
| `Schedulers.Scheduler.HandleInitProcess` | kernel_scheduler/src/planificador.c:470-487 | the new process first, then the caller, is queued, and the CPU is free |
| `Schedulers.Scheduler.ReleaseMutexes` | kernel_scheduler/src/mutex_manager.c:287-314 | the names of the owned mutexes are collected, and each is unlocked |
| `Schedulers.Scheduler.HandleExit` | kernel_scheduler/src/planificador.c:424-467 | the process is gone, its mutexes passed on, its CPU free, the scheduler sound |

## Left out
- Stick, swap and CPU disconnection and the system's BSOD: transfers are taken to succeed, and then the branches for a failed read or write of a segment cannot be reached.
- The part of `op_reanudar_proceso` that skips a block it cannot read (kernel_memory/src/kernelmemory.c:986-989): unreachable for the same reason.
- Sockets, handshakes, configuration, scripts, logs, delays, threads and locks: each handler is one atomic step, as the socket mutexes make it for memory; between `quitar_de_ready_por_pid` and `reinsertar_al_principio_de_ready` the scheduler does let the dispatcher in.
- The handshake by which the scheduler evicts CPUs before a compaction: memory is compacted only while contexts are stored.
- Physical addresses kept by a pending STDIN or STDOUT request; the CPU's side of both, translation and fault, is modelled.
- `decode`: programs are lists of decoded instructions, and a text that is no instruction is `Undecoded`.
- Suspension timers, the SUSP. BLOCK and SUSP. READY lists and `intentar_reanudar_proceso` in the scheduler; suspension and resumption themselves are in kernel memory. Entries that a hand-over leaves behind in `lista_block` are kept, and nothing is claimed about them.
- Quantum timers: an expiry is the event that marks a CPU as interrupted, at any time.
- Priority inheritance beyond one owner: the code stops there, and `Inheritance.LockInheritsIff` says when that matters.
- Sticks and swap blocks of size 0 and a total memory of 2 GiB or more.
- What becomes of memory after a segment of 0 bytes or a process number used twice: `Kernel.AllocKeepsInvIff` and `Kernel.CreateKeepsInvIff` say when a state is no longer sound, and runs do not go on from there.
- Answers to MEM_ALLOC, MEM_FREE and STDIN in `Transparency`: they change the memory of the process, and the bytes of a new segment are whatever memory held.
- Runs with a STDIN or STDOUT whose address reads as negative in `Transparency`: there the layout does show, as `Witnesses.CompactionShows` has it.
- Priorities of 2^31 or more, which the code reads as negative queue numbers.
- A COPY_MEM whose buffer `malloc` refuses, and every other failed `malloc`.
- `list_sort` and the dictionary are library code: sorting is a pure function, and segments are collected in an arbitrary order of processes.
- Process control blocks are values in a map under their numbers, as are memory's process records; pointers to them are numbers, so use after `free` is not modelled.
- After a failed resumption the code has freed records that the table still points to (kernel_memory/src/kernelmemory.c:1006); the model reads them as they were.
- The loop of the dispatcher and the listener loops of the modules: one turn each is modelled.
- Sticks.MemoryStick.Read: does not model the wrap of offset and length in 32 bits, because kernel memory never asks for such a range and the copy would leave the buffer.
- Sticks.MemoryStick.Write: does not model that wrap either, for the same reason.
- KernelMemories.KernelMemory.StoreBack: asks for the table it sent, because no CPU edits its table.
- Cpus.Cpu.Load: asks for a table whose numbers fit in 32 bits, because the program's fields hold no others.
- KernelMemories.KernelMemory.MemAlloc: asks for at least one byte; `Kernel.AllocKeepsInvIff` says what a request for none does.
- Misuse.UnlockSoundIff: says nothing about inheritance after an unlock by someone who is not the owner.
