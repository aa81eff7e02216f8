# Proofs about the MangoPi (sun20i) kernel of 9front

This project models the machine-dependent core of the kernel under `mangopi_overlay/sys/src/9/sun20i` and proves
what it keeps: the Sv39 page-table manager, trap entry and return, note delivery, floating-point switching, the
`plan9.ini` parser, the card-clock divider and the cache-maintenance loop.  `dafny verify dfyconfig.toml` checks all
of it.

## How the model is laid out

**Page tables.**  `Sv39` is the hardware walk of sections 4.3.2 and 4.4 of the RISC-V Privileged Architecture
(version 20211203) over table pages of decoded entries.  `UserTree`, `ProcTables` and `KernelTree` are one process's
tables, its walk and recycle, and the kernel half with `splitblock` and `mmuuncache`, as functions of memory.
`Machine` adds satp, a translation cache that may remember any walk at any moment, and all processes; its `Inv` says
that trees, lists and pages are owned once, that every live root shares the kernel half, that satp names the boot root
or a live root, and that every cached translation agrees with a walk from the current satp.  `Steps` gives each
piece of `mmu.c` that runs whole as a step and proves its exact effect; `Runs`, `Pages` and `Refill` are the statements
over all runs, `UncacheRange` says which byte addresses `mmuuncache` reaches, and `FlushFrames` that the cache lines it
flushes are those of the bytes the page tables give them.  `PteWords` and `RamWords` relate the 64-bit words and the
macros of `mem.h` to the decoded entries, `HwWalk` is the hardware's walk once more on the words themselves, with every
bit position a literal, so that no constant is checked only against itself, and `Mmu`, `StepParts`, `BlockRuns` and
`Putmmu` are the code itself: classes whose fields are the memory words, satp and each `Proc`'s list heads, updated
word by word - `memset` and `memmove` included - with the hardware free to walk after every store to a table.
`PageLists` is the Page structures with their next pointers, on which `mmuused` and `mmufree` of all processes lie as
separate chains.

**Boot.**  `BootTables` and `BootRuns` say what any sequence of `mapleaf` and `mapblock` calls maps and how many tables
it takes; `BootRegions` and `BootMap` are the loops and the sixteen calls of `mmubootstrap`; `BootResult` is the map
they leave and what `mmulowdrop` leaves of it; `TableStore` and `Bootstrap` are the code.  `FromBoot` joins boot to the
runs of the machine.

**Traps, notes, floating point.**  `TrapFrames` is `trapvec` and `forkret` as functions of the hart, `TrapRuns` every
run of nested traps, switches and forks, `TrapCode` the instructions, those of `forkretfp` and `touser` among them; what
they leave is also said by offset and bit.  `NoteFrames`, `Notes` and `NoteRuns` are the note frame, its round trip and
its nesting, `NoteCalls` the code.  `FpSwitch` is every run of FP steps without notes,
`FpNotes` what a note does to one process's FP context, `FpuCode` the code.

**The rest.**  `BootConf` and `BootArgs` (`bootargs.c`), `CardClock` (`ccu.c`), `CacheLines` (`dcflush` and
`dcacheciparange`).

## What the proofs found

- The comment at `ccu.c:144` says the card is never clocked faster than asked.  That is false: 5 MHz from the 24 MHz
  oscillator gives 6 MHz (`CardClock.FasterThanAsked`), because line 164 divides downwards.  `CardClock.NoFasterIff`
  gives the exact condition.  The clock is below `hz * (div + 1) / div` if and only if `div` is at most 128
  (`CardClock.CardBound`); at 1 Hz it is 93,750 times what was asked (`CardClock.BoundFails`).
- `PTEPA` keeps bits 63:54 of a leaf, so the shareable bit reaches the address; `splitblock` is still right because
  `PAPTE` puts those bits back where they already are (`PteWords.SplitWordExact`).
- `noted` gives back the interrupted Ureg except for status, which stays that of the trap that called it, so it is the
  interrupted Ureg exactly when the two statuses are equal (`Notes.RoundTrip`).
- `dcacheciparange` reads its length as 32 bits and stops at the end of the address space, so `dcflush` cleans exactly
  the lines of its range if and only if the rounded length fits 32 bits and the range ends below the last line or lies
  in one line (`CacheLines.FlushExactIff`); of 4 GB less a byte it cleans nothing (`CacheLines.CountIsCut`).
  `mmuuncache` asks for at most 2 MB, which always fits (`BlockRuns.UncacheFlushes`).
- The first process enters user mode by `touser`, which does not call `procrestore`.  It finds whatever is in the FP
  registers, and what it leaves there survives its first switch if and only if its fpstate was already `FPactive`, or
  the registers happen to hold `initfp`; and it was `FPactive` just when the kernel process it came from had been
  switched out since it began (`FpSwitch.TouserKeepsIff`, with a loss in `FpSwitch.TouserLoses`).
- `fpunoted` loads nothing.  Interrupted code finds its FP registers after a note if and only if what the handler wrote
  since its first switch, or at all if it was not switched, left them so (`FpNotes.NoteKeepsIff`); a handler keeps its
  own over its first switch only if they are the interrupted ones (`FpNotes.HandlerKeepsIff`), and after a handler that
  was not switched the interrupted code's own later work is lost at its next switch (`FpNotes.ResumedKeepsIff`).
- `mmurootalloc` publishes a root in two stores with interrupts on, `mmuroot` and then `satp`.  A `mmuswitch` to that
  process between the two leaves satp on no root; to any other it does not (`Steps.TornSwitch`).  The runs below take
  the two stores as one step.

## Assumptions about code outside the model

`newpage` and `mallocalign` return pages nobody owns; `freepages` and `putpage` take them back.  `okaddr` accepts a
range when it accepts every byte of it, and only below `USTKTOP`.  Kernel code keeps its stack pointer inside its stack
and below the saved Uregs, leaves room for one more Ureg, never writes sscratch, keeps R6 and R7, and changes nothing
in a kernel Ureg and anything but status in a user Ureg; `forkret` and `touser` are entered with interrupts off, and
so is `forkretfp`, whose first instruction is taken with the switch to it.  Every page has a Page structure.  Calls of
`mmuuncache` do not overlap: `ucalloc`'s caller makes them one at a time, with interrupts off; two that met in
`mallocalign` (`mmu.c:435`) on one block could undo each other.  `getfields` with mflag set splits at runs of newlines
and leaves all the rest in the last field.

User code may store anywhere, its saved Uregs included; what a return from a note gives back when it does is whatever
it left there (`Notes.StatusNeverChanges`), and `NoteRuns.NoteThenReturn` and `NoteRuns.DisciplinedLeaves` say when it is
the interrupted Ureg.

## Model

| member | source | states |
|---|---|---|
| UserTree.WalkOnTree | mangopi_overlay/sys/src/9/sun20i/mmu.c:267-294 | On a process tree the hardware walk of a user page is its level-0 entry, and faults where a level is missing. |
| UserTree.LinkTop | mangopi_overlay/sys/src/9/sun20i/mmu.c:282-291 | Hanging a zeroed page under a free root slot keeps the tree and changes no translation. |
| UserTree.LinkMid | mangopi_overlay/sys/src/9/sun20i/mmu.c:282-291 | The same one level down. |
| ProcTables.HangKeeps | mangopi_overlay/sys/src/9/sun20i/mmu.c:282-291 | Popping a page from mmufree, zeroing it and hanging it keeps tree and lists, changes no user translation and no page the process does not own, and leaves one level fewer missing. |
| ProcTables.DescendKeeps | mangopi_overlay/sys/src/9/sun20i/mmu.c:267-294 | The walk keeps everything the process owns and every translation, gives the level-0 table or fails only with mmufree empty and a level missing; missing levels less free pages never changes. |
| ProcTables.PutKeeps | mangopi_overlay/sys/src/9/sun20i/mmu.c:344-354 | The leaf store changes exactly the entry of its own page. |
| ProcTables.FreeKeeps | mangopi_overlay/sys/src/9/sun20i/mmu.c:300-313 | Recycling empties the user half, moves every used page to mmufree once, and keeps the kernel half and the pages owned. |
| ProcTables.FreeMissing | mangopi_overlay/sys/src/9/sun20i/mmu.c:300-313 | A recycle never makes a later walk need more new pages. |
| ProcTables.RootKeeps | mangopi_overlay/sys/src/9/sun20i/mmu.c:247-260 | A new root has an empty user half and the boot root's kernel half. |
| KernelTree.WalkOnBTree | mangopi_overlay/sys/src/9/sun20i/mmu.c:58-118 | On the boot tree a kernel walk is decided by the level-0 leaf, or by the 2 MB leaf and VPN[0]. |
| KernelTree.SplitKeeps | mangopi_overlay/sys/src/9/sun20i/mmu.c:417-448 | splitblock leaves every walk, with every attribute bit, as it was; it succeeds iff the block is split already, when it is a no-op, or is mapped and there is a page; else it changes nothing. |
| KernelTree.SplitPages | mangopi_overlay/sys/src/9/sun20i/mmu.c:417-448 | splitblock touches kernel tables only, and takes at most the page mallocalign gave. |
| KernelTree.ClearRunKeeps | mangopi_overlay/sys/src/9/sun20i/mmu.c:469-470 | Clearing C changes exactly the translations of the pages of the run, and only their C bit. |
| Machine.ConfinedKeeps | mangopi_overlay/sys/src/9/sun20i/mmu.c:267-406 | A change to pages one process owns or newly gets keeps every invariant of the tables and every other process's and the kernel's translations. |
| Machine.KernelShared | mangopi_overlay/sys/src/9/sun20i/mmu.c:242-256 | Every kernel address walks alike under every live root and the boot root. |
| Machine.SatpSteady | mangopi_overlay/sys/src/9/sun20i/l.s:353-356 | With roots, walks and satp unchanged, every cached translation still agrees. |
| Machine.FencedKeeps | mangopi_overlay/sys/src/9/sun20i/l.s:353-356 | After satpset's fence the cache agrees with the new root, whichever live root that is. |
| Steps.WalkConfined | mangopi_overlay/sys/src/9/sun20i/mmu.c:267-294 | mmuwalk on one process keeps all others and the kernel half, even when it returns nil midway. |
| Steps.TryLands | mangopi_overlay/sys/src/9/sun20i/mmu.c:329-356 | putmmu's walk, store and fence change exactly one page of one process, to the frame and access asked for. |
| Steps.SwitchEffect | mangopi_overlay/sys/src/9/sun20i/mmu.c:392-406 | mmuswitch empties the map of a stale process and of no other, and leaves satp naming the process root or the boot root. |
| Steps.FlushEffect | mangopi_overlay/sys/src/9/sun20i/mmu.c:369-378 | flushmmu empties the caller's map and changes nothing else. |
| Steps.ReleaseEffect | mangopi_overlay/sys/src/9/sun20i/mmu.c:379-391 | mmurelease leaves the process nothing mapped and satp on the boot root. |
| Steps.RootEffect | mangopi_overlay/sys/src/9/sun20i/mmu.c:247-260 | mmurootalloc gives an empty user half and the shared kernel half, and changes no walk from the current satp. |
| Steps.LoadEffect | mangopi_overlay/sys/src/9/sun20i/mmu.c:322-327 | The satpset that follows puts satp on the new root, with no translation changed and the cache in agreement. |
| Steps.TornSwitch | mangopi_overlay/sys/src/9/sun20i/mmu.c:258-259 | Between the two stores that publish a root, mmuswitch leaves satp on a live root iff it is not to that process. |
| Steps.UncacheEffect | mangopi_overlay/sys/src/9/sun20i/mmu.c:453-478 | mmuuncache clears C on exactly its pages under every root, and a nil return leaves the state as it was. |
| Steps.UncachedIff | mangopi_overlay/sys/src/9/sun20i/mmu.c:466-467 | mmuuncache gets past splitblock iff the block is split already, or is mapped and mallocalign gave a page. |
| BlockRuns.OneBlockIs | mangopi_overlay/sys/src/9/sun20i/mmu.c:458-462 | Its checks pass iff size is not 0, both are whole pages, and the first and the last byte lie in one 2 MB block. |
| Steps.StepSatp | mangopi_overlay/sys/src/9/sun20i/mmu.c:315-406 | Where satp points after each step: only satpset, mmuswitch, flushmmu and mmurelease move it, and where to. |
| UncacheRange.RunIsRange | mangopi_overlay/sys/src/9/sun20i/mmu.c:453-470 | The entries cleared are those of exactly the addresses v to v+size-1. |
| UncacheRange.UncachedBytes | mangopi_overlay/sys/src/9/sun20i/mmu.c:453-478 | A kernel address loses C iff it lies in [v, v+size) and the call succeeds, and otherwise translates as before. |
| Steps.StepEffect | mangopi_overlay/sys/src/9/sun20i/mmu.c:242-478 | Every step keeps the invariant - ownership, satp safety, TLB agreement - and changes just the translations it should. |
| Runs.RunKeepsInv | mangopi_overlay/sys/src/9/sun20i/mmu.c:242-478 | The invariant holds after every run of any steps of any processes, with the hardware caching at will. |
| Runs.StepRefines | mangopi_overlay/sys/src/9/sun20i/mmu.c:267-406 | Each step does to the page maps what the abstract map of each process says. |
| Runs.RunRefines | mangopi_overlay/sys/src/9/sun20i/mmu.c:267-406 | Over every run the Sv39 walk of each process's user half is its abstract map from page to frame and access. |
| Pages.UsedIsReachable | mangopi_overlay/sys/src/9/sun20i/mmu.c:267-313 | mmuused is exactly the tables reachable from root slots 0-255, each by one path, and is disjoint from mmufree and the root. |
| Pages.ReachedIsOwned | mangopi_overlay/sys/src/9/sun20i/mmu.c:315-406 | Whatever is reachable from satp is a kernel table or owned by the process satp names: no freed page. |
| Pages.ReleasedOnce | mangopi_overlay/sys/src/9/sun20i/mmu.c:383-389 | mmurelease returns every page the process owns, each once. |
| Pages.PagesConserved | mangopi_overlay/sys/src/9/sun20i/mmu.c:247-391 | Over every run, pages given plus pages owned before equal pages returned plus pages owned after, as multisets. |
| Pages.KernelWalkAfter | mangopi_overlay/sys/src/9/sun20i/mmu.c:417-478 | Over every run a kernel translation changes only by losing C, and only where a successful mmuuncache covered it. |
| Pages.KernelHalfShared | mangopi_overlay/sys/src/9/sun20i/mmu.c:242-260 | The same under every live process root, whenever it was created. |
| Refill.BackgroundDemand | mangopi_overlay/sys/src/9/sun20i/mmu.c:330-336 | Whatever runs while newpage sleeps, a recycle included, the walk never needs more pages than before. |
| Refill.FailedRound | mangopi_overlay/sys/src/9/sun20i/mmu.c:330-336 | Each failed round leaves the walk at least one page closer. |
| Refill.RootStays | mangopi_overlay/sys/src/9/sun20i/mmu.c:322-327 | Whatever runs after mmurootalloc published a root, satpset finds it still published and loads it. |
| Refill.FirstPutOk | mangopi_overlay/sys/src/9/sun20i/mmu.c:315-336 | A first putmmu can go through: a root page and any distinct pages no one owns will do. |
| Refill.QuietRoundsOk | mangopi_overlay/sys/src/9/sun20i/mmu.c:331-335 | What the bound assumes of newpage can be met: any distinct pages no one owns will do. |
| Refill.RefillBound | mangopi_overlay/sys/src/9/sun20i/mmu.c:329-336 | The retry loop calls newpage at most twice and then lands, whatever the windows did. |
| PteWords.LinkDecodes | mangopi_overlay/sys/src/9/sun20i/mem.h:90-98 | PAPTE(pa)|PTEPTR is a pointer to pa, and PTEPA reads it back. |
| PteWords.SatpDecodes | mangopi_overlay/sys/src/9/sun20i/mem.h:111-112 | MKSATP selects Sv39 with that root. |
| PteWords.PutDecodes | mangopi_overlay/sys/src/9/sun20i/mmu.c:344-354 | putmmu's word decodes to the page and the access its flags ask for. |
| HwWalk.PutBits | mangopi_overlay/sys/src/9/sun20i/mmu.c:344-354 | The word putmmu stores, bit by bit, from the bits of pa, with no named constant. |
| HwWalk.AttrIs | mangopi_overlay/sys/src/9/sun20i/mem.h:79-124 | Each attribute the hardware decodes is one bit of the word: R 1, W 2, X 3, U 4, G 5, A 6, D 7, and 63 to 60 the memory type. |
| HwWalk.WalkIs | mangopi_overlay/sys/src/9/sun20i/mem.h:60-124 | The walk on decoded tables is the Sv39 walk on the words, bit for bit, for every memory, satp and address. |
| HwWalk.GrantedIf | mangopi_overlay/sys/src/9/sun20i/mmu.c:344-354 | What putmmu maps is, in the words, the byte, the rights and the memory type the bits of pa ask for. |
| PteWords.SplitWordExact | mangopi_overlay/sys/src/9/sun20i/mmu.c:437-440 | splitblock's i-th word is the block's word with only VPN[0] added, despite PTEPA's unmasked bits. |
| PteWords.SplitDecodes | mangopi_overlay/sys/src/9/sun20i/mmu.c:437-440 | It decodes to the i-th page of the block with every attribute unchanged. |
| PteWords.ClearDecodes | mangopi_overlay/sys/src/9/sun20i/mmu.c:470-470 | Clearing PTE_THEAD_C changes the cacheable attribute and nothing else. |
| PteWords.SoftwareReads | mangopi_overlay/sys/src/9/sun20i/mmu.c:278-279 | The V test, the R|W|X test and PTEPA agree with the hardware's reading of the word. |
| Mmu.Kernel.MmuWalk | mangopi_overlay/sys/src/9/sun20i/mmu.c:267-294 | The code's walk on words does what the walk on trees says, with the hardware walking after every store. |
| Mmu.Kernel.TryPut | mangopi_overlay/sys/src/9/sun20i/mmu.c:329-356 | Walk, leaf store and fence on words reach the step's state. |
| Mmu.Kernel.FirstRoot | mangopi_overlay/sys/src/9/sun20i/mmu.c:247-260 | mmurootalloc on words, interrupts on and walks from the current satp going on, reaches the step's state. |
| Mmu.Kernel.LoadSatp | mangopi_overlay/sys/src/9/sun20i/mmu.c:324-326 | satpset(up->satp) likewise. |
| Mmu.Kernel.Mmufree | mangopi_overlay/sys/src/9/sun20i/mmu.c:300-313 | mmufree: the user half cleared word by word, mmuused spliced onto mmufree; the hardware may have cached any walk in between. |
| Mmu.Kernel.Splice | mangopi_overlay/sys/src/9/sun20i/mmu.c:307-312 | The loop reverses mmuused onto mmufree through the next pointers, and every other process's lists stay as they were. |
| Mmu.Kernel.PopTable | mangopi_overlay/sys/src/9/sun20i/mmu.c:282-286 | The head of mmufree becomes the head of mmuused, and all lists stay chains. |
| Mmu.Kernel.LinkFree | mangopi_overlay/sys/src/9/sun20i/mmu.c:334-335 | A page on no list becomes the head of mmufree, and all lists stay chains. |
| PageLists.PopLinks | mangopi_overlay/sys/src/9/sun20i/mmu.c:282-286 | If all lists are chains on which no page lies twice, they are so after one page moves between two of them. |
| PageLists.PushLinks | mangopi_overlay/sys/src/9/sun20i/mmu.c:334-335 | The same after a page on no list is pushed. |
| PageLists.SpliceTurns | mangopi_overlay/sys/src/9/sun20i/mmu.c:307-311 | A turn of the loop keeps what is left of mmuused, mmufree and every other list separate acyclic chains. |
| Mmu.Kernel.Mmuswitch | mangopi_overlay/sys/src/9/sun20i/mmu.c:392-406 | mmuswitch on words reaches the step's state. |
| Mmu.Kernel.Flushmmu | mangopi_overlay/sys/src/9/sun20i/mmu.c:369-378 | flushmmu likewise. |
| Mmu.Kernel.Mmurelease | mangopi_overlay/sys/src/9/sun20i/mmu.c:379-391 | mmurelease likewise, handing back the root and a list whose next pointers lead through every page the process owned. |
| Mmu.Kernel.Splitblock | mangopi_overlay/sys/src/9/sun20i/mmu.c:417-448 | splitblock on words: 512 stores to the new table, then the link and the fence. |
| Mmu.Kernel.Mmuuncache | mangopi_overlay/sys/src/9/sun20i/mmu.c:453-478 | mmuuncache on words: nil for the sizes and ranges it refuses, else the step's state and the flush of its range: exactly the lines of the bytes the boot root's walk gives its addresses. |
| BlockRuns.UncacheFlushes | mangopi_overlay/sys/src/9/sun20i/mmu.c:453-491 | At a KADDR address mmuuncache flushes at most 2 MB from PADDR of it, so exactly the lines of that physical range are cleaned, each once. |
| FlushFrames.PaddrOfKaddr | mangopi_overlay/sys/src/9/sun20i/mem.h:46-47 | PADDR undoes KADDR below 2 GB, as numbers. |
| FlushFrames.LinesAreFrames | mangopi_overlay/sys/src/9/sun20i/mmu.c:475-491 | Where a kernel range translates 2 GB on, the lines flushed are exactly those of the bytes the walk gives its addresses. |
| Mmu.Kernel.Mmulowdrop | mangopi_overlay/sys/src/9/sun20i/mmu.c:180-190 | After the two stores and the fence every invariant of the machine holds. |
| PutmmuLoop.RetryLoop | mangopi_overlay/sys/src/9/sun20i/mmu.c:329-336 | The loop as it runs, with any calls inside newpage: at most two newpage calls, and then the page is mapped. |
| PutmmuLoop.StartRoot | mangopi_overlay/sys/src/9/sun20i/mmu.c:322-328 | The first root with interrupts on but for satpset: the machine reaches the run of those pieces and windows. |
| PutmmuLoop.DoPutmmu | mangopi_overlay/sys/src/9/sun20i/mmu.c:315-363 | putmmu whole, with any calls inside newpage, between mmurootalloc and satpset, and between satpset and the loop: afterwards the hardware, walking the words from up's satp, takes va to the byte of pa's page with the rights and the memory type the bits of pa ask for; at most three newpage calls, one of them for a root. |
| BootTables.ApplyKeeps | mangopi_overlay/sys/src/9/sun20i/mmu.c:58-118 | mapleaf and a turn of mapblock change exactly the pages they cover and take exactly the missing tables. |
| BootRuns.BudgetAndMap | mangopi_overlay/sys/src/9/sun20i/mmu.c:42-118 | Any sequence of calls whose blocks and pages share no level-1 slot takes 1 + distinct VPN[2] + distinct (VPN[2],VPN[1]) of pages tables, and maps each page as the last call covering it says. |
| TableStore.StorePages | mangopi_overlay/sys/src/9/sun20i/mmu.c:35-56 | newtable's pages are distinct, page-aligned and inside tablestore, whatever its alignment. |
| BootRegions.RangeSound | mangopi_overlay/sys/src/9/sun20i/mmu.c:78-85 | Every call of maprange is at an aligned offset below its size. |
| BootRegions.BlockSound | mangopi_overlay/sys/src/9/sun20i/mmu.c:104-118 | Every entry mapblock writes is at a 2 MB-aligned offset below its size. |
| BootMap.LeafDecodes | mangopi_overlay/sys/src/9/sun20i/mem.h:114-124 | PAPTE(pa)|attr decodes to pa's page with the memory or the device type. |
| BootMap.HalfSound | mangopi_overlay/sys/src/9/sun20i/mmu.c:133-151 | Every one of the calls places a covered page or block at one of its two aliases. |
| BootMap.Agrees | mangopi_overlay/sys/src/9/sun20i/mmu.c:133-151 | Any call that covers an alias of a page maps it to that page with its memory type. |
| BootResult.BootCompatible | mangopi_overlay/sys/src/9/sun20i/mmu.c:133-151 | DRAM blocks and device pages share no level-1 slot. |
| BootResult.BootBudget | mangopi_overlay/sys/src/9/sun20i/mmu.c:19-21 | The calls touch 4 root slots and 16 level-1 slots, so 21 of the 24 tables. |
| BootResult.BootMapIs | mangopi_overlay/sys/src/9/sun20i/mmu.c:125-159 | 21 tables are taken; low alias and KADDR alias of every covered page walk to it with one memory type, and nothing else is mapped. |
| BootResult.BootMapByAddress | mangopi_overlay/sys/src/9/sun20i/mmu.c:125-151 | The same map by address and attribute bit: DRAM, PIO and six device pages, each at itself and 2 GB below the top, and nothing else. |
| BootResult.CoveredIs | mangopi_overlay/sys/src/9/sun20i/io.h:7-55 | The pages covered, and the memory type of each, as numbers. |
| BootResult.LowDropKeeps | mangopi_overlay/sys/src/9/sun20i/mmu.c:180-190 | After mmulowdrop no low address resolves and every high translation is unchanged. |
| BootResult.BootedInv | mangopi_overlay/sys/src/9/sun20i/mmu.c:125-190 | The machine boot leaves satisfies every invariant. |
| Bootstrap.BootMmu.Newtable | mangopi_overlay/sys/src/9/sun20i/mmu.c:42-56 | Pages of tablestore in order, and the endless loop exactly when none is left. |
| Bootstrap.BootMmu.Mapleaf | mangopi_overlay/sys/src/9/sun20i/mmu.c:58-76 | The tables hold one call more, unless a table is needed and none is left. |
| Bootstrap.BootMmu.Maprange | mangopi_overlay/sys/src/9/sun20i/mmu.c:78-85 | The tables hold all the range's calls, or the budget is exceeded. |
| Bootstrap.BootMmu.Mapblock | mangopi_overlay/sys/src/9/sun20i/mmu.c:104-118 | The same for blocks. |
| Bootstrap.BootMmu.Mmubootstrap | mangopi_overlay/sys/src/9/sun20i/mmu.c:125-159 | It never spins, takes 21 tables, returns MKSATP of the root, and leaves the boot map. |
| Bootstrap.BootMmu.Start | mangopi_overlay/sys/src/9/sun20i/l.s:67-96 | From zeroed BSS to main: the machine is sound, high translations are the boot map's, and no one owns a page outside tablestore. |
| FromBoot.ClearedIsFresh | mangopi_overlay/sys/src/9/sun20i/l.s:51-59 | BSS clearing gives the empty root and zeroed tablestore the boot results start from. |
| FromBoot.StartOpen | mangopi_overlay/sys/src/9/sun20i/l.s:67-96 | After boot no one owns a page outside tablestore, and any process can be given a root there. |
| FromBoot.FirstPutmmu | mangopi_overlay/sys/src/9/sun20i/mmu.c:315-356 | With three such pages its first putmmu goes through and its page is mapped. |
| FromBoot.BootRunRefines | mangopi_overlay/sys/src/9/sun20i/mmu.c:125-406 | From boot, over every run, the invariant holds and every process's walk is its abstract map. |
| FromBoot.KaddrHolds | mangopi_overlay/sys/src/9/sun20i/mmu.c:133-141 | After any run from boot, under every live root, KADDR of a covered page walks to it with its memory type, less C where it was uncached. |
| FromBoot.FlushIsFrames | mangopi_overlay/sys/src/9/sun20i/mmu.c:453-491 | Whatever has run since boot, if a kernel range in one 2 MB block translates at all, what mmuuncache flushes for it is exactly the lines of the bytes it translates to, each once. |
| TrapFrames.LeaveUndoes | mangopi_overlay/sys/src/9/sun20i/l.s:106-244 | The return undoes the trap: pc, sp, every register, mode, and sstatus but for SPIE and SPP. |
| TrapRuns.BranchMatches | mangopi_overlay/sys/src/9/sun20i/l.s:107-110 | trapvec's test of sscratch tells the interrupted mode, and the saved SPP agrees. |
| TrapRuns.ScratchTells | mangopi_overlay/sys/src/9/sun20i/l.s:107-123 | Outside entry and exit sscratch is m in user mode and 0 in the kernel. |
| TrapRuns.FramesNeverOverlap | mangopi_overlay/sys/src/9/sun20i/l.s:114-128 | No two Uregs overlap, on one kernel stack or on two. |
| TrapRuns.BootWorld | mangopi_overlay/sys/src/9/sun20i/l.s:79-93 | highstart establishes the protocol. |
| TrapRuns.StepKeeps | mangopi_overlay/sys/src/9/sun20i/l.s:106-244 | Traps, returns, switches, forks and kernel code keep the protocol, saved Uregs with SIE 0 included. |
| TrapRuns.TrapStores | mangopi_overlay/sys/src/9/sun20i/l.s:100-191 | What any trap leaves, by offset and bit: pc, R1-R31, status, ie, cause, tval and 0 in the Ureg, where it lies, and the registers with which trap(ureg) is called. |
| TrapRuns.ReturnLoads | mangopi_overlay/sys/src/9/sun20i/l.s:195-244 | What any return gives, by offset and bit: pc, R1-R31, mode, status and sscratch from the Ureg 16 above sp. |
| TrapRuns.TouserStarts | mangopi_overlay/sys/src/9/sun20i/l.s:363-382 | The first user instruction is at 4128, with m in sscratch. |
| TrapRuns.RunKeeps | mangopi_overlay/sys/src/9/sun20i/l.s:106-244 | It holds in every run. |
| TrapRuns.ReturnQuiet | mangopi_overlay/sys/src/9/sun20i/l.s:195-244 | The Ureg any return loads has SIE 0, so no instruction from there to SRET can take an interrupt. |
| TrapRuns.ForkKeeps | mangopi_overlay/sys/src/9/sun20i/trap.c:265-276 | A child starts with a user Ureg at the top of its own stack and sched.sp at that Ureg, and the protocol holds for it. |
| TrapRuns.ForkCopies | mangopi_overlay/sys/src/9/sun20i/trap.c:265-276 | The child's Ureg is the parent's word for word, but for 0 in R8, and the parent's own stays as it was. |
| TrapRuns.StepKeepsWords | mangopi_overlay/sys/src/9/sun20i/l.s:106-244 | No trap, return, switch, spawn, fork or exit changes any of the 37 words of any saved Ureg. |
| TrapRuns.RunKeepsWords | mangopi_overlay/sys/src/9/sun20i/l.s:106-244 | Over any run a Ureg not returned from keeps all its words if kernel code's own stores leave it alone. |
| TrapRuns.TrapThenReturn | mangopi_overlay/sys/src/9/sun20i/l.s:106-244 | A trap, any run that does not return from it, then its return: mode, sstatus, sscratch, pc, sp and every register are back, for kernel code always and for a user unless kernel code itself wrote its Ureg; then the user gets those words. |
| TrapCode.Cpu.Trapvec | mangopi_overlay/sys/src/9/sun20i/l.s:106-191 | The instructions of trapvec store each register and CSR at its own offset, store nothing else, and call trap(ureg) with up, m, gp and sp as they must be. |
| TrapCode.Cpu.Forkret | mangopi_overlay/sys/src/9/sun20i/l.s:195-244 | The instructions of forkret load each register, pc and status from its own offset, and if the Ureg has SIE 0 none of the states between its parts can take an interrupt. |
| TrapCode.Cpu.Forkretfp | mangopi_overlay/sys/src/9/sun20i/l.s:510-516 | forkretfp calls procrestore with up and a frame below the Ureg, and ends as a return from that Ureg. |
| TrapCode.Cpu.Touser | mangopi_overlay/sys/src/9/sun20i/l.s:363-382 | touser leaves SPP clear, FS Clean, SIE and SPIE set, every other status bit, m in sscratch, the stack pointer asked for, and 4128 as pc. |
| Notes.FrameHolds | mangopi_overlay/sys/src/9/sun20i/trap.c:294-302 | notify's four stores lie in the checked range, do not overlap, and are each read back. |
| Notes.HandlerStarts | mangopi_overlay/sys/src/9/sun20i/trap.c:303-306 | The handler gets the Ureg's address in R8, the frame's sp and its own pc, and every other register and status unchanged. |
| Notes.NotifyIff | mangopi_overlay/sys/src/9/sun20i/trap.c:279-309 | notify delivers iff the 456 bytes from 712 below sp may be stored to, the handler is even and sp is aligned; the Ureg goes 552 below sp, and every register, pointer and byte it then leaves. |
| Notes.RoundTrip | mangopi_overlay/sys/src/9/sun20i/trap.c:279-343 | noted on the untouched frame gives back the interrupted Ureg but for status, exactly it iff the statuses are equal; NCONT and NRSTR return 0 iff pc is readable and even and sp readable and aligned. |
| Notes.SaveIff | mangopi_overlay/sys/src/9/sun20i/trap.c:331-336 | NSAVE returns 0 iff the interrupted pc may be resumed and the frame may still be stored to. |
| Notes.SaveAgain | mangopi_overlay/sys/src/9/sun20i/trap.c:331-342 | NSAVE delivers again with the sp and arg notify delivered, and leaves the saved Ureg alone. |
| Notes.NotedIs | mangopi_overlay/sys/src/9/sun20i/trap.c:311-343 | noted for every argument and any bytes in the Ureg: each of the 37 words it leaves, the two words NSAVE alone stores, every other byte, and the exact condition of its return code. |
| Notes.StatusNeverChanges | mangopi_overlay/sys/src/9/sun20i/trap.c:238-342 | Neither notify nor noted changes status, whatever bytes the handler left. |
| NoteFrames.StatusKept | mangopi_overlay/sys/src/9/sun20i/trap.c:238-246 | setregisters copies any bytes at any offset but leaves status. |
| Notes.NestedFrame | mangopi_overlay/sys/src/9/sun20i/trap.c:279-309 | A note taken below the handler's sp leaves the outer frame alone. |
| NoteRuns.RunKeeps | mangopi_overlay/sys/src/9/sun20i/trap.c:279-343 | In every run of nested notes, with NSAVE at any depth, segments changing and user code storing anywhere, every saved Ureg stays in memory, and one that nothing stores over keeps every byte. |
| NoteRuns.StepKeepsSaved | mangopi_overlay/sys/src/9/sun20i/trap.c:279-343 | What an event does not store over stays as it was; only user stores, a frame pushed over it or NSAVE words over it can. |
| NoteRuns.DisciplinedLeaves | mangopi_overlay/sys/src/9/sun20i/trap.c:279-343 | If handlers stay on the stack they were given and user stores leave a saved Ureg alone, so does all that notify and noted do. |
| NoteRuns.NoteThenReturn | mangopi_overlay/sys/src/9/sun20i/trap.c:279-343 | A note, any run that leaves its Ureg alone, then its return: the interrupted Ureg is back, status apart, and is accepted iff pc is readable and even and sp readable and aligned. |
| NoteRuns.ReturnRestores | mangopi_overlay/sys/src/9/sun20i/trap.c:311-329 | A return from an intact saved Ureg gives back what its own note interrupted, status apart, and is accepted iff pc is readable and even and sp readable and aligned. |
| NoteRuns.SaveRestarts | mangopi_overlay/sys/src/9/sun20i/trap.c:331-342 | At any depth NSAVE restarts the youngest handler with the sp and arg its own note gave it, iff the interrupted pc and the frame are still accepted. |
| NoteCalls.Up.Notify | mangopi_overlay/sys/src/9/sun20i/trap.c:279-309 | notify as it runs does what its specification says, refusals included. |
| NoteCalls.Up.Noted | mangopi_overlay/sys/src/9/sun20i/trap.c:311-343 | noted as it runs, with its order of copy and checks; a misaligned Ureg pointer is refused before anything is copied, and NCONT and NRSTR return 0 iff the new pc is readable and even and the new sp readable and aligned. |
| NoteCalls.Setregisters | mangopi_overlay/sys/src/9/sun20i/trap.c:238-246 | The copy and the status put back. |
| FpSwitch.StepContext | mangopi_overlay/sys/src/9/sun20i/fpu.c:28-75 | A step changes a live process's FP context only if it is that process's own FP step or exec, or touser or the first switch of a process that has not met procrestore. |
| FpSwitch.ChildStarts | mangopi_overlay/sys/src/9/sun20i/l.s:503-516 | Whatever runs between the fork and the child's first turn, forkretfp gives its user code initfp, with the four constants in F28-F31, and FPactive. |
| FpSwitch.UserSeesOwn | mangopi_overlay/sys/src/9/sun20i/fpu.c:45-75 | Switched out and back, whatever others do meanwhile, user code finds the registers it left, or initfp if its process came from touser and has met neither a switch nor an exec. |
| FpSwitch.SetupPreempted | mangopi_overlay/sys/src/9/sun20i/fpu.c:28-39 | Preempted between its halves, procsetup still leaves initfp in the registers and the state FPactive. |
| FpSwitch.RunRefines | mangopi_overlay/sys/src/9/sun20i/fpu.c:17-75 | In every note-free run registers, save areas and initfp implement one private context per process; user code always finds its own in the registers, and is FPactive unless it came from touser and has met neither a switch nor an exec. |
| FpSwitch.StepKeeps | mangopi_overlay/sys/src/9/sun20i/fpu.c:28-75 | At most the running process is FPactive; and it is, outside procsetup, unless it began as a kernel process not yet switched out. |
| FpSwitch.BootHolds | mangopi_overlay/sys/src/9/sun20i/fpu.c:17-26 | With no process yet the invariant and the refinement hold. |
| FpSwitch.TouserKeepsIff | mangopi_overlay/sys/src/9/sun20i/l.s:363-382 | The registers of the process touser starts survive its first switch iff fpstate was FPactive at touser or they are initfp; it was FPactive iff the process had been switched out before. |
| FpSwitch.TouserLoses | mangopi_overlay/sys/src/9/sun20i/l.s:363-382 | Any other registers are lost: a run that shows it. |
| FpNotes.NoteKeepsIff | mangopi_overlay/sys/src/9/sun20i/fpu.c:77-92 | Interrupted code finds its FP registers after a note iff what the handler wrote since its first switch, or at all if not switched, left them so. |
| FpNotes.HandlerKeepsIff | mangopi_overlay/sys/src/9/sun20i/fpu.c:45-92 | A handler's own FP registers survive its first switch iff they are those it was entered with. |
| FpNotes.ResumedKeepsIff | mangopi_overlay/sys/src/9/sun20i/fpu.c:45-92 | After the note the interrupted code keeps its FP registers over its next switch iff the handler was switched or they are as the note found them. |
| FpNotes.NoteLoses | mangopi_overlay/sys/src/9/sun20i/fpu.c:77-92 | A handler that computes and is not switched: its registers reach the interrupted code. |
| FpNotes.NestedNote | mangopi_overlay/sys/src/9/sun20i/fpu.c:77-92 | While a handler runs FPnotify is set, so an inner note saves nothing; what the save area holds then, and what the inner fpunoted leaves. |
| FpuCode.Fpu.Procsave | mangopi_overlay/sys/src/9/sun20i/fpu.c:45-57 | procsave on the state word, the registers, the save area and FS: saved when FPactive and not exiting, FPinit when exiting, else nothing. |
| FpuCode.Fpu.Procrestore | mangopi_overlay/sys/src/9/sun20i/fpu.c:59-75 | procrestore likewise: initfp for FPinit, the save area for FPinactive, nothing when FPactive already. |
| FpuCode.Fpu.Procsetup | mangopi_overlay/sys/src/9/sun20i/fpu.c:28-39 | procsetup for a child and for the running process. |
| FpuCode.Fpu.Fpunotify | mangopi_overlay/sys/src/9/sun20i/fpu.c:77-86 | fpunotify on the state word, the registers and the save area. |
| FpuCode.Fpu.Fpunoted | mangopi_overlay/sys/src/9/sun20i/fpu.c:88-92 | fpunoted on the state word. |
| FpuCode.Fpu.Fpuinit | mangopi_overlay/sys/src/9/sun20i/fpu.c:17-26 | initfp holds zeros and the four constants. |
| FpuCode.StateBits | mangopi_overlay/sys/src/9/sun20i/dat.h:41-47 | Bit 8 of fpstate is FPnotify and the rest the state, in every test and store of the code. |
| BootConf.LookupAdd | mangopi_overlay/sys/src/9/sun20i/bootargs.c:25-38 | addconf sets its key, ignoring case, and leaves every other. |
| BootConf.TableGrows | mangopi_overlay/sys/src/9/sun20i/bootargs.c:25-38 | The table never holds two names equal ignoring case. |
| BootConf.NeverFull | mangopi_overlay/sys/src/9/sun20i/bootargs.c:32-33 | addconf's drop is unreachable. |
| BootConf.TableIsLastSetting | mangopi_overlay/sys/src/9/sun20i/bootargs.c:68-86 | A key's value is the text after the first = of the last non-comment line that sets it, ignoring case. |
| BootConf.LookupIsLast | mangopi_overlay/sys/src/9/sun20i/bootargs.c:68-86 | getconf gives v iff some line is key=v for that key ignoring the case of A-Z, with no = in the key and no # first, and no later line sets the key. |
| BootConf.SettingIs | mangopi_overlay/sys/src/9/sun20i/bootargs.c:69-75 | A line sets iff it is key=value with no = in the key and no # first, and then key and value are those. |
| BootConf.LinesSplit | mangopi_overlay/sys/src/9/sun20i/bootargs.c:67-67 | Runs of newlines separate lines, and the last field allowed takes all the rest. |
| BootConf.FilterIs | mangopi_overlay/sys/src/9/sun20i/bootargs.c:56-65 | Byte by byte, 13 goes and 9 becomes 32. |
| BootArgs.Strip | mangopi_overlay/sys/src/9/sun20i/bootargs.c:56-65 | The in-place pass leaves exactly the text without carriage returns and with spaces for tabs. |
| BootArgs.Conf.Findconf | mangopi_overlay/sys/src/9/sun20i/bootargs.c:14-23 | The first entry of that name, or -1. |
| BootArgs.Conf.Addconf | mangopi_overlay/sys/src/9/sun20i/bootargs.c:25-38 | addconf on the two arrays. |
| BootArgs.Conf.Bootargsinit | mangopi_overlay/sys/src/9/sun20i/bootargs.c:45-77 | The table is that of the filtered text's lines, empty for a missing file. |
| BootArgs.GetconfAfterInit | mangopi_overlay/sys/src/9/sun20i/bootargs.c:45-87 | getconf after bootargsinit gives v iff the last line of the filtered file that sets the name, ignoring case, sets it to v. |
| CardClock.Peri1xExact | mangopi_overlay/sys/src/9/sun20i/ccu.c:106-117 | The chained divisions are one floor division, and the rate fits 32 bits. |
| CardClock.Pre | mangopi_overlay/sys/src/9/sun20i/ccu.c:167-168 | The least shift, up to 3, that brings div to 16 or less. |
| CardClock.TotalBounds | mangopi_overlay/sys/src/9/sun20i/ccu.c:167-173 | m is in 1..16 and, for div up to 128, m<<p lies in [div, div + 2^p). |
| CardClock.CardBound | mangopi_overlay/sys/src/9/sun20i/ccu.c:164-173 | For every rate asked, the card clock is below hz * (div+1) / div iff div is at most 128. |
| CardClock.BoundFails | mangopi_overlay/sys/src/9/sun20i/ccu.c:164-173 | Asked for 1 Hz of the oscillator, the divider stops at 128 and the card gets 93,750 Hz. |
| CardClock.NoFasterIff | mangopi_overlay/sys/src/9/sun20i/ccu.c:144-173 | The card is no faster than asked iff the ratio is 0, or at most 128 and either exact or really rounded up. |
| CardClock.FasterThanAsked | mangopi_overlay/sys/src/9/sun20i/ccu.c:144-164 | 5 MHz asked of the oscillator gives 6 MHz. |
| CardClock.PackDecodes | mangopi_overlay/sys/src/9/sun20i/ccu.c:175-178 | The register word decodes back to source, p and m, with the gate off and on. |
| CardClock.Ccu.Mmc0clock | mangopi_overlay/sys/src/9/sun20i/ccu.c:146-181 | The register written divides the source it selects, at that source's rate, for hz: the least shift and the rounded divider, below hz * (q+1) / q iff the quotient q is at most 128, no faster than hz under NoFasterIff's condition; written first with the gate off. |
| CardClock.Ccu.Peri1xfreq | mangopi_overlay/sys/src/9/sun20i/ccu.c:105-117 | The rate from bits 15:8, 1 and 18:16 of the register. |
| CacheLines.FlushExact | mangopi_overlay/sys/src/9/sun20i/mmu.c:483-491 | The lines cleaned are exactly those meeting [pa, pa+n), each once, when the rounded length fits 32 bits and the range does not wrap. |
| CacheLines.FlushExactIff | mangopi_overlay/sys/src/9/sun20i/mmu.c:483-491 | For every address and length, exactly the lines of the range are cleaned iff the rounded length fits 32 bits and the range ends below the last line or lies in one line. |
| CacheLines.CountIsCut | mangopi_overlay/sys/src/9/sun20i/l.s:489-492 | Such a failure within 32 bits: a length of 4 GB less a byte cleans nothing. |
| CacheLines.Dcache.Dcacheciparange | mangopi_overlay/sys/src/9/sun20i/l.s:488-500 | The loop ends for every aligned address and length and cleans len/64 lines from pa in order, or what is left when the end wraps. |
| CacheLines.Dcache.Dcflush | mangopi_overlay/sys/src/9/sun20i/mmu.c:483-491 | dcflush's rounding and call, for any address. |

## Left out

- Mmu.Kernel.FirstRoot: the two stores that publish a new root are one step; what goes wrong between them is Steps.TornSwitch.  The satp write after them is a step of its own.
- FromBoot.ClearedIsFresh: the loop of l.s:51-59 is not modelled; that it leaves zeroed pages is the definition of Cleared.
- Mmu.Kernel.Mmuuncache: usize is taken as 32 bits wide, as l.s:490 reads it.
- Bootstrap.BootMmu.Mapleaf: a page call under an existing 2 MB leaf, which the code would read as a table, is excluded; no call of mmubootstrap makes one (BootResult.BootCompatible).
- PutmmuLoop.DoPutmmu: needtxtflush, fencei and donetxtflush, which order instruction fetches, are not made.
- Bootstrap.BootMmu.Maprange: a size so large that the offset wraps round for ever is excluded by asking for the number of turns.
- Bootstrap.BootMmu.Mapblock: the same.
- Notes.RoundTrip: nureg is the address notify returned; the portable code that keeps it is not part of this model.
- BootArgs.Conf.Bootargsinit: names and values are texts; that they point into the buffer, and the NULs getfields and the '=' split write there, are not modelled.
- FpSwitch.RunRefines: its runs have no notes, since with them the claim is false; FpNotes has the exact conditions, for one process and one note at a time.
- A walk with satp in bare mode counts as a fault, leaf accessed and dirty bits are not updated by the hardware, and reserved pointer bits fault as the architecture says.
- coherence() and microdelay(): ordering of device stores.
- cankaddr and dramsize: one folds constants in compiler-dependent arithmetic, the other is one fixed probe.
- tas and cmpswap: mutual exclusion would need an assumption about reservations across traps.
- The C part of trap(), syscall(), faultriscv and execregs: in TrapRuns they are kernel code that keeps the protocol.
- cpuclockinit, mmc0enable, usb1enable and setconfenv: fixed sequences of device register writes, and a loop that copies the table to environment variables.
- Device drivers, main.c, stub.c and the test programs.
