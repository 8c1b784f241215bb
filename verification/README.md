# Horizon: a verified model of the kernel core, the heap and the FAT reader

Horizon is a small message-passing microkernel with a user library and servers. This project models
its hard parts in Dafny and proves what they promise.

* **The kernel as a state machine.** Interrupts are off inside the kernel, so every system call, kernel
  message and timer interrupt is one atomic step. `KernelState` gives the steps as functions.
  `KernelInvariant.Core` (tables, thread states, no lost wake-up) is kept by every step of every run, without
  exception. `KernelInvariant.Fresh` (known ports, blocked senders, one payload message each) is kept by every
  orderly step: one that wraps no 8-bit version and sends no payload size without a buffer. `KernelMail`,
  `KernelTime` and `KernelContext` prove first-in-first-out per sender, answered waits, bounded waiting and saved
  registers of all runs; `KernelRendezvous` and `KernelPorts` say what holds of blocked senders and of ports that outlive
  their threads, and exactly when. `KernelAnswers` and `KernelLives` say from outside, with all conditions and codes
  written out, when each call is carried out, what it answers and what it changes, and follow this over runs: where new
  threads start, how long a turn lasts, and that a receiver is told the size its sender gave.
* **The kernel as the C code has it.** `Schedulers.Scheduler` is the doubly linked run queue,
  `Processes.Process` the per-process slot array with linked mail queues and bitmaps,
  `BmStacks.BmStack` the bitmap with a linked list of non-full words, and `Kernels.Kernel` the system calls
  on top of them. Every system call is proved to take the abstract step of the state machine, so the
  theorems about runs hold of the linked structures.
* **Memory.** Reference-counted frames (`Frames`), two-level page tables held in such frames, with the kernel's
  tables from 3GB up shared by all directories (`Paging`), range operations over many address spaces
  (`AddressSpaces`), bytes behind page tables (`Payload`), the grant and vmap system calls (`Grants`, `Vmaps`),
  the destruction of an address space (`Teardown`), the last 4MB of it, where tables show as pages (`Windows`), the
  thread records in kernel memory (`Records`), and a receive that joins the kernel step with the copy of
  the payload (`Delivery`).
* **User code.** The first-fit heap (`Heaps`), the cached FAT16 reader (`Fat`) and number formatting (`Numbers`).

Kernel assertions are preconditions; so is that a sender which a receive looks up, without an assertion, is there.
Where an assertion guards a resource that runs out inside a loop (frames, 8-bit reference counts), the method returns
`ok`, false if and only if the kernel would have stopped. The condition is on the state before the call: the new pages
and their missing tables need more frames than are left (`AddressSpaces.Need`), or for shared pages, some frame would get
more than 255 references or the tables more frames than are left (`AddressSpaces.ShareFits`).
Whether a user pointer is mapped, and whether the kernel grants new heap pages, are parameters.

## What does not hold, and exactly when it does

* Clearing a new thread's record leaves its queue head at 0 instead of the end mark -1. A message put in front
  of that empty queue yields a chain if and only if the head is the end mark (`MailSlots.PrependToEmpty`);
  with 0 the chain never ends (`MailSlots.ZeroHeadNeverEnds`). The model starts with the end mark.
* A send with a payload size but no buffer queues a payload message whose sender keeps running. Senders stay
  blocked on their messages if and only if no such send completes (`KernelRendezvous.SendKeepsBlockedExactly`,
  with the concrete state `KernelBoot.SizeWithoutBufferBreaks`).
* A kill never releases the senders blocked on the victim. Every blocked sender keeps a message to wait for if
  and only if no surviving sender's message sits in a killed queue (`KernelRendezvous.KillKeepsPairedExactly`,
  with the run `KernelBoot.KillStrandsSender`).
* A drop without a destination reads the sender's port from address zero, with or without a payload. It does what a
  drop does if and only if there is no message, or that address is mapped and, for a payload, the port there leads to the
  sender; with the address unmapped it ends the caller (`KernelRendezvous.NullDropExactly`,
  `KernelRendezvous.NullDropMisses`).
* A saved instruction address of 0 marks a thread that has never run. A stopped thread resumes with its registers if and
  only if it was not stopped at address 0, unless its entry point is 0 too; from there it starts again at its entry
  point (`KernelContext.ResumesWhereItStopped`, with the run `KernelBoot.RestartedFromZero`).
* A new thread's record is cleared to the end of its last page. The record of another live thread survives if and only
  if it lies in front, or behind that page (`Records.NewRecord`, `Records.RecordsSurviveExactly`); the next one is wiped
  if and only if it does not start a page (`Records.NextRecordIsWiped`).
* The version counters have 8 bits and do hand out 0, which the comments call reserved. After any run a version is
  the number of creations in its slot modulo 256 (`KernelPorts.VersionsCountCreations`). A stale port leads to the
  new thread in its slot if and only if the process slot was reused a multiple of 256 times and the thread slot's
  number of uses since then agrees modulo 256 (`KernelPorts.StalePortExactly`, with the run
  `KernelReuse.StalePortReached`). A live thread's port leads back to it unless both versions are 0 and it is not the
  main thread (`KernelPorts.PortRoundTripExactly`, with the state `KernelBoot.WornPortMisleads`).
* Comparing a port with a sender's and resolving it disagree in exactly four cases: the wildcard, a local port, an
  unversioned port with a thread number, and a versioned port against a thread whose versions are both 0
  (`KernelPorts.CompareAgreesExactly`). A wait for a local port is accepted, and no message ever ends it
  (`KernelPorts.LocalWaitNeverEnds`, `KernelBoot.LocalWaitSleeps`).
* A grant has no test against the kernel's part of the address space, and its sums wrap around. An accepted grant is a
  move from one process to the other if and only if both ranges end at or below 3GB (`Grants.GrantMovesExactly`);
  `Grants.KernelHalfGrant` is a grant of any page that the kernel has allocated from 3GB up.
* In the last 4MB a directory's entries show as pages. After one is unmapped the page tables make sense if and only if
  there was nothing, or an empty table of the process's own (`Windows.UnmapWindow`).
* Likewise an accepted vmap gives memory if and only if the range does not wrap around (`Vmaps.SyscallVmap`).
* Destroying an address space releases, in each table, only the entry with the table's own number, and that many
  times. The counts are exact afterwards if and only if every page of the process was in a frame on that diagonal and
  in no other process (`Teardown.DirDestroy`, with `Teardown.PageLeaks` and `Teardown.PageDangles`).
* Once every frame was taken at the same moment, the frame allocator never hands out a frame again, whatever is
  released later (`Frames.OutOfFramesExactly`, `Frames.FreeButLost`).
* A request to `malloc` gets enough room if and only if size + 15 does not reach 2^32 (`Heaps.RoomExactly`). After
  a successful call the heap can be walked if and only if its block has a size or is not cut
  (`Heaps.Heap.Malloc`); it has none exactly for 2^32-15 to 2^32-8 bytes (`Heaps.BlockSizeZero`), and on
  `Heaps.ZeroBlockStops`'s heap the next walk never advances.
* A heap that is allowed to grow gets memory in user space if and only if the new range does not wrap around
  (`Heaps.GrowthSoundExactly`); `malloc(0xF0000000)` with the heap ending at 0x10000000 does (`Heaps.WrappedGrowth`).
* The one-sector cache of the FAT reader compares 16 bits of a sector number, and sectors are read at a 32-bit byte
  offset. It serves the right sector over a whole run if and only if all requests lie below sector 2^23, none follows one
  that lies a multiple of 65536 above it and the first is not for sector 65535 (`Fat.CacheRightExactly`,
  `Fat.CacheGoesWrong`). A read is right if its two lists of sectors, known before the call, are served in this sense
  after what was asked before (`Fat.Reader.FatRead`); on a disk of at most 65535 sectors they always are
  (`Fat.SmallDiskRead`, `Fat.ReadFile`).
* A read is cut off at the end of the file if and only if offset + length does not reach 2^32 (`Fat.ClipExactly`).
* The end-of-chain test in `find_cluster` compares a 16-bit value with -1 and is never true. The search gives what it
  should if and only if the chain does not end before the offset (`Fat.FindClusterExactly`, `Fat.PastTheEnd`).

## Model
| member | source | states |
|---|---|---|
| Ports.UnpackOfPack | kernel/core/ipc/port.c:23-34 | Unpacking a packed port gives back all four bit fields |
| Ports.PackOfUnpack | kernel/core/ipc/port.c:23-34 | Packing what a 32-bit value unpacks to gives the value back |
| Ports.SpecialPorts | kernel/core/ipc/port.c:23-34 | The two special ports have the published values, and the version fields lie where the format puts them |
| Ports.VersionsArePeriodic | kernel/core/multitask/process.c:82-84 | The version after n creations in a slot is n modulo 256, so 0 is handed out too |
| Ports.VersionCollision | kernel/core/multitask/thread.c:41-42 | Two generations share a version exactly when they are a multiple of 256 apart |
| RunQueue.AddKeepsQueue | kernel/core/multitask/scheduler.c:44-76 | After an add the queue still holds exactly the active threads, once each |
| RunQueue.RemoveKeepsQueue | kernel/core/multitask/scheduler.c:80-131 | After removing any set of threads the queue holds exactly the active threads and other states are unchanged |
| RunQueue.NextKeepsQueue | kernel/core/multitask/scheduler.c:134-156 | A turn rotates the queue by one and changes no state |
| RunQueue.KeepTwice | kernel/core/multitask/scheduler.c:113-131 | Removing two sets one after the other removes their union and keeps the order of the rest |
| RunQueue.ArrivalKeepsDelay | kernel/core/multitask/scheduler.c:44-76 | An arrival leaves the delay bound of every queued thread as it is |
| RunQueue.DepartureKeepsDelay | kernel/core/multitask/scheduler.c:80-131 | A departure never raises the delay bound of a remaining thread |
| RunQueue.TurnShortensDelay | kernel/core/multitask/scheduler.c:189-198 | Every tick and every yield lowers the delay bound of each waiting thread by at least one |
| Schedulers.Scheduler.constructor | kernel/core/multitask/scheduler.c:25-26 | A new scheduler is the empty queue |
| Schedulers.Scheduler.Add | kernel/core/multitask/scheduler.c:44-76 | Linking a thread in before the active one is appending it to the queue; links stay inverse and form one cycle |
| Schedulers.Scheduler.Remove | kernel/core/multitask/scheduler.c:80-110 | Unlinking a thread cuts it out of the queue and keeps one cycle through the active thread |
| Schedulers.Scheduler.Purge | kernel/core/multitask/scheduler.c:113-131 | The loop removes every thread of the process and keeps the others in order |
| Schedulers.Scheduler.Next | kernel/core/multitask/scheduler.c:134-156 | The turn passes to the next thread, registers are saved and restored, and the address space is loaded if it differs |
| Schedulers.Scheduler.TimerTick | kernel/core/multitask/scheduler.c:189-198 | A tick uses up one unit of the slice and passes the turn when it is used up |
| Schedulers.Scheduler.Lock | kernel/core/multitask/scheduler.c:159-165 | Locking saves the running thread's registers |
| Schedulers.Scheduler.Unlock | kernel/core/multitask/scheduler.c:168-179 | Unlocking resumes the head of the queue in its own address space |
| Schedulers.Scheduler.Curr | kernel/core/multitask/scheduler.c:183-186 | The current thread is nobody exactly when the scheduler is locked or the queue empty, else the head |
| Schedulers.Scheduler.TaskSwitch | kernel/arch/i586/sw/task.c:64-83 | The current registers go to the old task; the new task gets its saved ones, or its entry point the first time |
| Schedulers.PurgeStep | kernel/core/multitask/scheduler.c:113-131 | One round of the purge loop extends the removed set by one thread number |
| Bitmaps.Set | kernel/util/bitmap.c:22-28 | Exactly one bit becomes set |
| Bitmaps.Clear | kernel/util/bitmap.c:31-37 | Exactly one bit becomes clear |
| Bitmaps.FindAndSet | kernel/util/bitmap.c:61-76 | Returns an index in range exactly when a clear bit exists; it is the lowest one and only it changes |
| Bitmaps.RoomLeft | kernel/core/system/message/syscall_send.c:47-49 | Fewer set bits than items leave a clear bit in range |
| BmStacks.BmStack.Link | kernel/util/bmstack.c:31-52 | The linking loop lists every non-full word once and no full word, and changes no bit |
| BmStacks.BmStack.Set | kernel/util/bmstack.c:55-67 | Sets one bit; after linking, the list stays exact and runs empty only when everything is set |
| BmStacks.BmStack.Clear | kernel/util/bmstack.c:70-87 | Clears one bit and keeps the list exact; an empty list stays empty |
| BmStacks.BmStack.FindAndSet | kernel/util/bmstack.c:114-129 | Returns a bit that was clear and sets only it |
| BmStacks.AllSetMeansEverything | kernel/util/bmstack.c:31-52 | All words are full exactly when every bit is set |
| MailSlots.PrependToEmpty | kernel/core/multitask/thread.c:39 | A message put in front of an empty queue gives a chain exactly when the head is the end mark |
| MailSlots.ZeroHeadNeverEnds | kernel/core/multitask/thread.c:39 | With the head left at zero the first prepended message points to itself for ever |
| Mail.PromoteKeepsOrder | kernel/core/ipc/message.c:131-171 | Moving the first match to the front never reorders one sender's messages |
| Mail.PrependKeepsOrder | kernel/core/ipc/message.c:52-71 | Putting a message in front is as good as appending it when nothing in the queue matches the wait |
| Processes.Process.constructor | kernel/core/multitask/process.c:68-103 | A new process block has no threads, no mail and zero thread versions |
| Processes.Process.MessageAdd | kernel/core/ipc/message.c:28-75 | The message enters the queue in front or at the end; chains stay acyclic and disjoint, and bits and count agree with them |
| Processes.Process.MessageRemove | kernel/core/ipc/message.c:79-110 | The head message leaves its queue and its slot becomes free |
| Processes.Process.MessagePeek | kernel/core/ipc/message.c:113-127 | Returns the head message |
| Processes.Process.MessageFind | kernel/core/ipc/message.c:131-171 | Finds a message exactly when one matches, and relinks the first match to the front of the queue |
| Processes.Process.Search | kernel/core/ipc/message.c:142-168 | The walk stops at the first match with the slot before it, or at the end |
| Processes.Process.ThreadNew | kernel/core/multitask/thread.c:28-56 | The lowest free thread number gets a record with an empty queue and the next version |
| Records.RecordsSurviveExactly | kernel/core/multitask/thread.c:36-39 | Allocating a thread's record leaves another live record alone exactly when that one lies in front of it or behind its last page |
| Records.NewRecord | kernel/core/multitask/thread.c:36-39 | Allocating record t of an array: succeeds exactly when the frames suffice, and every other live record survives exactly when it lies in front of it or behind its last page |
| Records.StaysPrivate | kernel/core/memory/virtual.c:112-128 | A page with one reference keeps its frame and its count when other pages are allocated |
| Records.NextRecordIsWiped | kernel/core/multitask/thread.c:36-39 | The next record lies on the cleared page exactly when it does not start a page; behind an aligned first record, exactly when the size is no multiple of a page |
| Processes.Process.ThreadKill | kernel/core/multitask/thread.c:60-74 | The thread is gone; the slots of its queue stay occupied |
| Processes.Process.Facts | kernel/core/multitask/thread.c:77-88 | The plain fields of a block say what its meaning says |
| KernelInvariant.PortLeadsBack | kernel/core/ipc/port.c:37-99 | A live thread's port leads back to it |
| KernelInvariant.ResolveIsOwner | kernel/core/ipc/port.c:63-99 | A port once handed out leads to its owner if that lives with the same versions, else to nobody |
| KernelInvariant.SendKeeps | kernel/core/system/message/syscall_send.c:29-90 | A send keeps the core, and the fresh part too unless it completes with a size and no buffer |
| KernelInvariant.RecvKeeps | kernel/core/system/message/syscall_recv.c:32-90 | A receive keeps the core and the fresh part |
| KernelInvariant.DropKeeps | kernel/core/system/message/syscall_drop.c:29-51 | A drop keeps the core and the fresh part |
| KernelInvariant.WaitKeeps | kernel/core/system/control/syscall_wait.c:26-69 | A wait keeps the core and the fresh part |
| KernelInvariant.KernelSendKeeps | kernel/core/system/message/internal_kmsg.c:28-53 | A kernel message keeps the core and the fresh part |
| KernelInvariant.KillKeeps | kernel/core/system/process/syscall_kill.c:27-51 | A kill keeps the core and the fresh part |
| KernelInvariant.FaultKeeps | kernel/core/system/process/internal_tkill.c:22-41 | The death of the running thread keeps the core and the fresh part |
| KernelInvariant.HeadSenderBlocked | kernel/core/system/message/syscall_recv.c:43-51 | The sender of a payload message at the head of a queue is blocked, so receive and drop never add an active thread again |
| KernelInvariant.StepKeeps | kernel/core/system/control/syscall_wait.c:26-69 | Every step keeps the core (table, states, no lost wake-up); every orderly step also keeps known ports, blocked senders and one payload message per sender |
| KernelInvariant.RunsKeep | kernel/core/system/message/syscall_send.c:29-90 | Every state of every run satisfies the core, however often slots are reused |
| KernelInvariant.OrderlyRunsKeep | kernel/core/system/message/syscall_send.c:29-90 | Every state of a run without a wrapped version and without a size that has no buffer satisfies the whole invariant |
| KernelInvariant.LetGoIsSound | kernel/core/multitask/scheduler.c:44-50 | In such a state receive and drop never add a thread that is dead or already running |
| KernelSteps.StepChange | kernel/core/system/message/syscall_send.c:77-90 | What a step does to every queue: one arrival, one departure, one reordering or nothing; unless a version wraps, ports follow their threads |
| KernelSteps.StepStates | kernel/core/system/message/syscall_send.c:55-85 | What a step does to every thread's state |
| KernelMail.RunsInOrder | kernel/core/ipc/message.c:28-171 | Over every run, each sender's messages to a thread are taken out in the order they were sent |
| KernelMail.ReceivedIsPrefix | kernel/core/system/message/syscall_recv.c:32-90 | What a thread got from a sender is an initial part of what that sender sent to it |
| KernelMail.WakeFindsMessage | kernel/core/system/message/syscall_send.c:77-85 | A waiting thread wakes up with a message it waits for at the head of its queue, or because a receiver took it for a sender, which cannot happen while the invariant is whole |
| KernelMail.WaitFindsMessage | kernel/core/system/control/syscall_wait.c:30-32 | A wait that finds its message leaves it at the head |
| KernelMail.HeadStays | kernel/core/system/message/internal_kmsg.c:41-52 | Nobody else disturbs the head of a queue while its owner is not waiting |
| KernelMail.HeadStaysForRuns | kernel/core/system/control/syscall_wait.c:26-69 | After a successful wait the awaited message stays at the head until its owner waits, receives or drops |
| KernelMail.WaitIsAnswered | kernel/core/system/control/syscall_wait.c:26-69 | From an accepted wait until the caller next touches its mail, it either still waits or has a message it waited for at the head of its queue; when it runs again it has |
| KernelRendezvous.PairedMeansOne | kernel/core/system/message/syscall_send.c:55-85 | Each blocked sender has exactly one payload message under way in the whole system |
| KernelRendezvous.StepKeepsPaired | kernel/core/system/message/syscall_recv.c:43-89 | A step without a kill keeps every blocked sender paired with a message |
| KernelRendezvous.RunsKeepPaired | kernel/core/system/message/syscall_send.c:55-85 | So does every run without a kill |
| KernelRendezvous.KillKeepsPairedExactly | kernel/core/system/process/syscall_kill.c:43-51 | A kill keeps the pairing exactly when no surviving sender's message sits in a killed queue |
| KernelRendezvous.SendKeepsBlockedExactly | kernel/core/system/message/syscall_send.c:55-75 | A send keeps senders blocked exactly when it does not carry a size without a buffer |
| KernelRendezvous.NullDropExactly | kernel/core/system/message/syscall_drop.c:33-48 | A drop without a destination does what a drop does exactly when there is no message, or address zero is mapped and, for a payload, the port there leads to the sender; unmapped, it ends the caller |
| KernelRendezvous.NullDropMisses | kernel/core/system/message/syscall_drop.c:33-48 | With zeros there, a main thread never releases the sender |
| KernelPorts.DeadPortsStayDead | kernel/core/ipc/port.c:63-99 | In every run in which no version wraps, the port of a dead thread leads to nobody, even after its slot is reused |
| KernelPorts.PortRoundTripExactly | kernel/core/ipc/port.c:37-99 | A live thread's port leads back to it exactly unless both versions are zero and it is not the main thread |
| KernelPorts.CompareAgreesExactly | kernel/core/ipc/port.c:102-117 | Comparing a port with a live thread's port agrees with where the port leads, except in exactly four cases: wildcard, local port, unversioned port with a thread number, versions both zero |
| KernelPorts.StalePortExactly | kernel/core/ipc/port.c:63-99 | After any run a thread's port leads to the thread now in its slot exactly when the numbers of creations in both slots agree modulo 256, else to nobody; a port without versions leads to the main thread's place |
| KernelPorts.VersionsCountCreations | kernel/core/multitask/process.c:78-84 | After any run the counters of a slot are its numbers of creations in the run, modulo 256 |
| KernelPorts.LocalWaitStep | kernel/core/system/control/syscall_wait.c:34-69 | No message ends a wait for a local port |
| KernelPorts.LocalWaitNeverEnds | kernel/core/system/control/syscall_wait.c:34-69 | In no orderly run does a wait for a local port end before the waiting thread is killed |
| KernelTime.StepDelay | kernel/core/multitask/scheduler.c:44-198 | No step raises a queued thread's delay bound, and ticks and yields lower it |
| KernelTime.BoundedWaiting | kernel/core/multitask/scheduler.c:134-198 | A thread at distance d runs or leaves within slice + 5(d-1) ticks and yields, whatever happens in between |
| KernelContext.StepSwitches | kernel/core/multitask/scheduler.c:134-179 | A step saves only the stopping thread's registers and starts a thread with those saved for it, in its address space |
| KernelContext.ResumesWhereItStopped | kernel/arch/i586/sw/task.c:64-91 | A thread that stopped resumes, any number of steps later, with the registers it stopped with, exactly unless it stopped at address 0; then it starts at its entry point |
| KernelContext.SleeperKeepsRegisters | kernel/arch/i586/sw/task.c:68-82 | While a thread does not run its saved registers stay, and it gets them back, or its entry point if their address is 0 |
| KernelContext.LoadedForRuns | kernel/core/multitask/scheduler.c:134-179 | After every step of every run the loaded address space is the running thread's |
| KernelAnswers.LeadsExactly | kernel/core/ipc/port.c:63-99 | A port leads to a live thread exactly when it names it: a main thread or a local one without versions, one thread with both versions |
| KernelAnswers.SendExactly | kernel/core/system/message/syscall_send.c:29-90 | Some queue grows exactly when the request is mapped, not for the caller, leads to a live thread with a free slot, and a buffer has a size and is mapped; the caller blocks exactly if it has a buffer too; who gets which message where; otherwise only the code of the first fault |
| KernelAnswers.KernelSendExactly | kernel/core/system/message/internal_kmsg.c:28-53 | A kernel message arrives as it is and wakes exactly a thread that waits for it; nothing else changes |
| KernelAnswers.RecvExactly | kernel/core/system/message/syscall_recv.c:32-90 | The answer is negative exactly when the queue keeps its head; otherwise the size of the payload, and its sender goes on, or 0; the conditions and the codes |
| KernelAnswers.DropExactly | kernel/core/system/message/syscall_drop.c:29-51 | The head goes with its slot and its sender goes on, or only a code comes back |
| KernelAnswers.WaitExactly | kernel/core/system/control/syscall_wait.c:26-69 | The first message that matches comes to the front; without one the caller sleeps exactly when there is anybody, the kernel or a live thread to wait for |
| KernelLives.SpawnExactly | kernel/core/system/process/syscall_spawn.c:23-30 | The new process is the caller's child with its privilege and the next version, without threads and mail; its number is returned |
| KernelLives.LaunchExactly | kernel/core/system/process/syscall_launch.c:25-46 | Carried out exactly for an existing process without threads whose parent is the caller, or for a privileged caller; the codes otherwise |
| KernelLives.DispatchExactly | kernel/core/system/process/syscall_dispatch.c:24-34 | A thread begins in the caller's process and its number is returned |
| KernelLives.DispatchedStarts | kernel/core/multitask/thread.c:51-52 | At its first turn after any run a dispatched thread is at its own entry point, or else its process's, on the stack it was given |
| KernelLives.LaunchedStarts | kernel/core/system/process/syscall_launch.c:40-42 | At its first turn after any run a main thread is at the entry point of the launch |
| KernelLives.LaunchHolds | kernel/core/system/process/syscall_launch.c:40-42 | For as long as its main thread lives a process keeps the entry point of its launch, its parent and its privilege |
| KernelLives.KillExactly | kernel/core/system/process/syscall_kill.c:27-51 | The target goes exactly when it exists and the caller's privilege is at least its own; all its threads leave the queue and all others stay; the codes otherwise |
| KernelLives.FaultExactly | kernel/core/system/process/internal_tkill.c:22-41 | A main thread takes its process along, another thread only itself |
| KernelLives.TurnExactly | kernel/core/multitask/scheduler.c:134-198 | A tick shortens the turn by one and the last one passes it on; a yield passes it on at once; the next turn has five ticks |
| KernelLives.TurnLasts | kernel/core/multitask/scheduler.c:189-198 | A thread that is left alone runs until exactly the last tick of its turn |
| KernelLives.StepKeepsIdentity | kernel/core/multitask/process.c:86-97 | No step changes the version, parent or privilege of a process, nor the entry point of a launched one |
| KernelLives.SizeArrives | kernel/core/system/message/syscall_recv.c:48-89 | From a blocking send over any run to the receive of its payload: the receive succeeds exactly when the size that was sent fits and the buffer is mapped, returns that size, and lets the sender go |
| KernelBoot.BootOk | kernel/core/multitask/scheduler.c:32-41 | A concrete state with three threads satisfies the invariant and all premises of the run theorems |
| KernelBoot.SizeWithoutBufferBreaks | kernel/core/system/message/syscall_send.c:55-56 | A concrete send with a size but no buffer leaves an unblocked sender behind its payload message |
| KernelBoot.KillStrandsSender | kernel/core/system/process/syscall_kill.c:43-45 | The run of two steps from the starting state in which a kill strands a blocked sender |
| KernelBoot.RestartedFromZero | kernel/arch/i586/sw/task.c:72-77 | A run from the starting state in which a thread preempted at address 0 starts again at its entry point |
| KernelBoot.LocalWaitSleeps | kernel/core/system/control/syscall_wait.c:34-69 | From the starting state, a wait for a local port is accepted and sleeps through every orderly run |
| KernelBoot.WornPortMisleads | kernel/core/ipc/port.c:37-99 | A concrete state in which a live thread with versions 0 has a port that leads to the main thread |
| KernelReuse.StalePortReached | kernel/core/multitask/process.c:68-103 | A run from the starting state after which the port of a dead thread leads to a new one in its slot, 256 processes later |
| Kernels.ReservedMap | kernel/core/multitask/process.c:59-63 | Process numbers 0 and 1 are taken from the start, the others free and linked |
| Kernels.Kernel.constructor | kernel/core/multitask/process.c:47-65 | The kernel starts without processes, in a state that satisfies the invariant |
| Kernels.Kernel.PortFromUid | kernel/core/ipc/port.c:37-52 | Gives the port of a live thread |
| Kernels.Kernel.PortToUid | kernel/core/ipc/port.c:63-99 | Gives the thread a port leads to, or nobody |
| Kernels.Kernel.ThreadGet | kernel/core/multitask/thread.c:77-88 | Finds a thread exactly when it is alive |
| Kernels.Kernel.SendCheck | kernel/core/system/message/syscall_send.c:31-61 | The checks of a send give the error code of the step, in order |
| Kernels.Kernel.SyscallSend | kernel/core/system/message/syscall_send.c:29-90 | The system call on the linked structures takes the Send step, also for a size without a buffer |
| Kernels.Kernel.RecvCheck | kernel/core/system/message/syscall_recv.c:34-61 | The checks of a receive give the error code, the blocked sender and the payload size of the step |
| Kernels.Kernel.SyscallRecv | kernel/core/system/message/syscall_recv.c:32-90 | The system call takes the Recv step and gives the caller the message that was at the head of its queue |
| Kernels.Kernel.SyscallDrop | kernel/core/system/message/syscall_drop.c:29-51 | The system call takes the Drop step and gives the caller the message that was at the head of its queue |
| Kernels.Kernel.WaitCheck | kernel/core/system/control/syscall_wait.c:34-56 | The checks of a wait give the error code of the step |
| Kernels.Kernel.SyscallWait | kernel/core/system/control/syscall_wait.c:26-69 | The system call takes the Wait step |
| Kernels.Kernel.InternalKsend | kernel/core/system/message/internal_kmsg.c:28-53 | A kernel message takes the KernelSend step |
| Kernels.Kernel.TimerInterrupt | kernel/core/multitask/scheduler.c:189-198 | A timer interrupt takes the Timer step |
| Kernels.Kernel.SyscallYield | kernel/core/system/control/syscall_yield.c:22-26 | The system call takes the Yield step |
| Kernels.Kernel.ProcessNew | kernel/core/multitask/process.c:68-103 | A free process number of at least 2 gets a block with the next version and its parent's privilege |
| Kernels.Kernel.SyscallSpawn | kernel/core/system/process/syscall_spawn.c:23-30 | The system call takes the Spawn step for a free number, also when the version wraps |
| Kernels.Kernel.OpenThread | kernel/core/multitask/thread.c:28-56 | The lowest free thread number gets a runnable thread, at its own entry point or else the process's |
| Kernels.Kernel.SyscallLaunch | kernel/core/system/process/syscall_launch.c:25-46 | The system call takes the Launch step: the process gets its entry point and a main thread that starts there |
| Kernels.Kernel.SyscallDispatch | kernel/core/system/process/syscall_dispatch.c:24-34 | The system call takes the Dispatch step, also when the version wraps; without an entry point the thread starts at the process's |
| Kernels.Kernel.ProcessKill | kernel/core/multitask/process.c:106-130 | The process, its threads and their places in the queue are gone; everything else stays |
| Kernels.Kernel.SyscallKill | kernel/core/system/process/syscall_kill.c:27-51 | The system call takes the Kill step, for itself or another process |
| Kernels.Kernel.InternalTkill | kernel/core/system/process/internal_tkill.c:22-41 | The death of the running thread takes the Fault step |
| Frames.FramePool.constructor | kernel/core/memory/physical.c:30-60 | Unusable frames are reserved, all others free, no counts |
| Frames.FramePool.Alloc | kernel/core/memory/physical.c:63-74 | A frame that was free becomes taken with count one |
| Frames.FramePool.Retain | kernel/core/memory/physical.c:77-87 | The count of an allocated frame rises by one |
| Frames.FramePool.Release | kernel/core/memory/physical.c:91-107 | The count falls by one, and the frame becomes free exactly when it reaches zero |
| Frames.RunKeepsPool | kernel/core/memory/physical.c:63-107 | Over every run a frame is taken exactly when it is reserved or counted |
| Frames.OutOfFramesExactly | kernel/util/bmstack.c:76-86 | The allocator is out of frames exactly when at some moment of the run every frame was taken |
| Frames.FramePool.RoomLeft | kernel/util/bmstack.c:114-120 | As long as the list of non-full words is not empty there is a free frame: what is left is zero exactly when the list is empty |
| Frames.FreeButLost | kernel/util/bmstack.c:81-86 | A concrete run on 32 frames, 31 of them reserved, after which a free frame is never handed out again |
| Paging.SplitUnique | kernel/arch/i586/sw/paging.c:33-36 | The upper and lower ten bits make up the page number, and so determine it |
| Paging.TableWrite | kernel/arch/i586/sw/paging.c:234-250 | Writing one table entry changes what one page leads to, and no other page of any process or of the kernel |
| Paging.TableHung | kernel/arch/i586/sw/paging.c:210-232 | Hanging a blank table into a directory changes no page |
| Paging.TableHungMirrors | kernel/arch/i586/sw/paging.c:80-91 | A table of the kernel's part is hung before there are other directories, so that all copies stay exact |
| Paging.DirMade | kernel/arch/i586/sw/paging.c:118-147 | A new directory has no table or page of its own and changes nobody else's |
| Paging.DirMadeMirrors | kernel/arch/i586/sw/paging.c:124-144 | It points back to itself and copies the kernel's entries from 3GB up, as every directory does |
| Paging.UpperWalk | kernel/arch/i586/sw/paging.c:130-144 | From 3GB up every process finds the page that the kernel finds |
| Paging.WalkFacts | kernel/arch/i586/sw/paging.c:332-344 | Every lookup stays inside the tables and finds what the flat map says, for a process's own pages and for the kernel's |
| Paging.WindowFacts | kernel/arch/i586/sw/paging.c:124-128 | In the last 4MB a lookup finds the entries of the directory itself |
| Paging.PageSet | kernel/arch/i586/sw/paging.c:234-250 | Pointing a page at a counted frame keeps the tables coherent and every count equal to its references |
| Paging.PageCleared | kernel/arch/i586/sw/paging.c:272-289 | Clearing a page and releasing its frame keeps every count equal to its references |
| AddressSpaces.Spaces.DirCreate | kernel/arch/i586/sw/paging.c:118-148 | A directory in a new frame, with the entry that points back and the kernel's entries; no mapping and no count changes; succeeds exactly when a frame is left |
| AddressSpaces.NewDirectory | kernel/arch/i586/sw/paging.c:124-144 | The copy loop fills exactly the entries from 3GB up and the last one |
| AddressSpaces.Spaces.PagingInit | kernel/arch/i586/sw/paging.c:77-91 | The kernel gets a directory with all tables of its part, and the memory is in order; succeeds exactly when 256 frames are left |
| AddressSpaces.Spaces.Lookup | kernel/arch/i586/sw/paging.c:292-344 | The two-level lookup finds the frame of the flat map, or that there is none, for every page of the address space |
| AddressSpaces.Spaces.TableFor | kernel/arch/i586/sw/paging.c:199-231 | A table is found, or made in a new frame below 3GB; mappings and existing counts stay; fails exactly when the table is missing and no frame is left |
| AddressSpaces.Spaces.Map | kernel/arch/i586/sw/paging.c:187-250 | An absent page is pointed at the frame and a present one left alone; counts stay exact; fails exactly when the table is missing and no frame is left |
| AddressSpaces.Spaces.Unmap | kernel/arch/i586/sw/paging.c:272-289 | Exactly this page's reference disappears, with its count: the process's own below 3GB, the one shared by all from there up |
| AddressSpaces.Spaces.VirtualIsMapped | kernel/core/memory/virtual.c:87-108 | Returns 1, 0 or -1 exactly when all, none or only some pages looked at are present: those the range reaches in 32-bit arithmetic, and always the first; in the last 4MB these are tables |
| AddressSpaces.Spaces.VirtualUnmap | kernel/core/memory/virtual.c:72-83 | Exactly the pages that the range reaches are unmapped; counts stay exact |
| AddressSpaces.Spaces.VirtualAlloc | kernel/core/memory/virtual.c:112-128 | Every missing page of the range gets a frame of its own that was not taken; all other pages stay; succeeds exactly when the missing pages and their missing tables were no more than the frames left before the call |
| AddressSpaces.Spaces.VirtualShare | kernel/core/memory/virtual.c:146-179 | The pages are shared one after the other, skipping missing sources and occupied targets; counts stay exact; succeeds exactly when no frame ends up with more than 255 references and the missing tables are no more than the frames left |
| AddressSpaces.NeedMore | kernel/core/memory/virtual.c:115-127 | One page more needs a frame, and one for its table unless that is there or an earlier page needed it |
| AddressSpaces.ShareStops | kernel/core/memory/virtual.c:162-178 | A share that cannot take one of its pages cannot be completed whatever comes after it |
| AddressSpaces.SharedPointwise | kernel/core/memory/virtual.c:162-178 | Between ranges without a common page every page is shared on its own and nothing else changes |
| AddressSpaces.ShareUnmapIsMove | kernel/core/system/memory/syscall_grant.c:68-70 | Sharing a full range into an empty one and unmapping the source moves the range |
| AddressSpaces.MovedKeepsCounts | kernel/core/system/memory/syscall_grant.c:68-70 | A move changes no frame's count |
| AddressSpaces.FreeExactly | kernel/core/memory/physical.c:91-107 | Outside the reserved frames, exactly the frames nothing refers to are free |
| AddressSpaces.AlignedRange | kernel/core/memory/virtual.c:94-100 | An aligned range reaches its own pages, or none if it wraps around |
| Grants.GrantIsToAnother | kernel/core/system/memory/syscall_grant.c:47-50 | The privilege check rules out granting to oneself |
| Grants.MoveIsGrant | kernel/core/system/memory/syscall_grant.c:68-70 | After a move every frame that any page referred to has the count it had |
| Grants.Transfer | kernel/core/system/memory/syscall_grant.c:68-70 | Share then unmap moves the range and keeps the counts of the moved frames; succeeds exactly when the share does |
| Grants.SyscallGrant | kernel/core/system/memory/syscall_grant.c:29-73 | Error codes in order; a refused grant changes nothing; a granted range moves on the page tables with its frames and counts, and moves for the processes exactly when both ranges end at or below 3GB; an accepted grant is carried out exactly when, with owner and target both holding the pages, no frame has more than 255 references and there are frames for the tables; the code of the first fault, condition by condition |
| Grants.GrantErrorIs | kernel/core/system/memory/syscall_grant.c:33-66 | A grant is refused with the code of the first condition that fails, and accepted exactly when none does: among them that the caller is the parent or has the higher privilege |
| Grants.GrantMovesExactly | kernel/core/system/memory/syscall_grant.c:52-70 | What all processes see is a move of the pages from owner to target exactly when both ranges end at or below 3GB |
| Grants.KernelHalfGrant | kernel/core/system/memory/syscall_grant.c:52-70 | For every page allocated and every page missing from 3GB up: the grant of the one at the other is accepted, lost to a third process, and kept by the owner at the other address |
| Vmaps.SyscallVmap | kernel/core/system/memory/syscall_vmap.c:26-46 | Error codes in order; an accepted request has all its pages, below the kernel's part and cleared, exactly when it does not wrap around; it fails exactly when the frames do not suffice for pages and tables; the answer is the address or the code of the first fault, condition by condition |
| Payload.CopyPayload | kernel/core/system/message/syscall_recv.c:66-81 | The sender's bytes arrive in the receiver's pages, in order, for every alignment and frame layout in which the two ranges do not share bytes; no other byte of memory changes |
| Payload.PrivateIsApart | kernel/core/system/message/syscall_recv.c:66-81 | Pages of the receiver with one reference each share no byte with other pages |
| Payload.PieceLoads | kernel/core/system/message/syscall_recv.c:69-77 | The bytes of one page piece are those the sender sees |
| Payload.AllocCleared | kernel/core/memory/virtual.c:110-142 | Every page of the range is there, and everything from its start to the end of its last page reads zero; no other byte changes; succeeds exactly when the frames suffice |
| Delivery.Receive | kernel/core/system/message/syscall_recv.c:32-90 | One Recv step of the kernel; the answer is the number of bytes that have come from the sender's buffer into the caller's, 0 without a payload, and negative exactly if nothing else has changed |
| Teardown.DirDestroy | kernel/arch/i586/sw/paging.c:151-183 | The process's references go; memory is in order afterwards exactly when every page was in a frame on the diagonal that no other process shares |
| Teardown.DestroyTable | kernel/arch/i586/sw/paging.c:163-178 | The loop over a table takes all counts from one frame and none from the others |
| Teardown.BalancedExactly | kernel/arch/i586/sw/paging.c:155-182 | The counts that are left equal the references that are left exactly for a tidy process |
| Teardown.PageLeaks | kernel/arch/i586/sw/paging.c:169 | In any memory, a page off the diagonal that only the process has leaves a frame with a count and no reference |
| Teardown.PageDangles | kernel/arch/i586/sw/paging.c:169 | In any memory, a page on the diagonal that another process shares leaves that one a frame without a count |
| Windows.UnmapWindow | kernel/arch/i586/sw/paging.c:272-289 | Unmapping a page of the last 4MB clears the directory's entry and takes its one count, or changes nothing if there is none; it leaves page tables that make sense exactly when nothing, or an empty table of the process's own, was there |
| Windows.CoherentUnique | kernel/arch/i586/sw/paging.c:323-344 | Only one set of references explains a set of page tables |
| Heaps.RoomExactly | lib/libh/src/malloc/malloc.c:8 | A block holds the request exactly when the 32-bit sum does not wrap, and is never a whole unit too large |
| Heaps.Disjoint | lib/libh/src/malloc/malloc.c:32-45 | Blocks do not overlap |
| Heaps.PlaceKeeps | lib/libh/src/malloc/malloc.c:18-28 | Splitting and marking a free block keeps the tiling and disturbs no block in use |
| Heaps.ZeroCutBreaks | lib/libh/src/malloc/malloc.c:18-28 | A block of no size that is cut off stops every walk over the heap, and no tiling of it exists |
| Heaps.BlockSizeZero | lib/libh/src/malloc/malloc.c:8 | A request gets a block of no size exactly from 2^32-15 to 2^32-8 bytes |
| Heaps.ZeroBlockStops | lib/libh/src/malloc/malloc.c:32-45 | A heap of one page on which malloc(0xFFFFFFF8) succeeds and the next walk never advances |
| Heaps.FreedKeeps | lib/libh/src/malloc/free.c:6-15 | Freeing and merging forward keeps the tiling and disturbs no other block in use |
| Heaps.GrownKeeps | lib/libh/src/malloc/__malloc_initialize.c:25-37 | Growing adds one free block and disturbs nothing |
| Heaps.Heap.FindFit | lib/libh/src/malloc/malloc.c:32-45 | The walk ends and finds the lowest free block that fits, if there is one |
| Heaps.Heap.Expand | lib/libh/src/malloc/__malloc_initialize.c:25-37 | Adds the least whole pages as one free block exactly when the kernel agrees and they end in user space; faults exactly when an accepted range wraps around |
| Heaps.GrowthSoundExactly | lib/libh/src/malloc/__malloc_initialize.c:25-37 | A range that the kernel accepts lies in user space exactly when it does not wrap around |
| Heaps.GrowsExactly | lib/libh/src/malloc/__malloc_initialize.c:25-37 | Growth succeeds exactly when the kernel agrees and the least whole pages for the block end at or below 3GB |
| Heaps.WrappedGrowth | kernel/core/system/memory/syscall_vmap.c:28-29 | At 0x10000000, malloc(0xF0000000) asks for such a range and is not refused |
| Heaps.Heap.Malloc | lib/libh/src/malloc/malloc.c:6-30 | A new block, the lowest that fits, disjoint from all in use, whose contents stay; NULL exactly when nothing fits and the heap cannot grow; the heap is still tiled exactly when the block has a size or is not cut; the words it writes: the block is taken whole or, from 16 bytes left over on, cut |
| Heaps.Heap.Free | lib/libh/src/malloc/free.c:4-16 | Exactly this block is given back, together with the next one if that is free; all others keep place, size and contents |
| Heaps.Heap.Realloc | lib/libh/src/malloc/realloc.c:5-20 | The block stays exactly when it is large enough; else the old contents are kept, the old block is freed, all other blocks stay untouched; fails exactly when no block can be had |
| Fat.ClustersApart | user/fatfs-all/fat.c:119-131 | Clusters lie behind the root directory and do not overlap |
| Fat.ClustersInLine | user/fatfs-all/fat.c:119-131 | The root directory starts behind the tables, cluster 2 right behind it, and each cluster right behind the one before |
| Fat.RootHolds | user/fatfs-all/fat.c:128 | The root directory takes the least number of sectors that holds its entries |
| Fat.EntryInTable | user/fatfs-all/fat.c:89-99 | An entry is the little-endian pair of bytes at twice the cluster number of the whole table |
| Fat.CacheRightExactly | user/fatfs-all/fat.c:46-66 | The cache serves the right sectors over a run exactly when all lie below 2^23 and no 16-bit alias occurs |
| Fat.ByteOffset | user/fatfs-all/fat.c:219-223 | The 32-bit byte offset of a sector is that of the sector modulo 2^23 |
| Fat.CacheGoesWrong | user/fatfs-all/fat.c:86-96 | Three concrete runs in which the wrong sector is served |
| Fat.ClipExactly | user/fatfs-all/fat.c:49-52 | A request is cut off at the end of the file exactly when its end does not wrap |
| Fat.PieceAt | user/fatfs-all/fat.c:60-75 | A piece of a sector is that piece of the file |
| Fat.DataByte | user/fatfs-all/fat.c:54-79 | Byte 512(kn+j)+o of a file is byte o of sector j of its cluster k on the disk, for n sectors to a cluster |
| Fat.RightAppend | user/fatfs-all/fat.c:62-66 | One more request is served exactly when the run was right so far and its own sector is in the buffer |
| Fat.SmallDiskServes | user/fatfs-all/fat.c:62-66 | On a disk of at most 65535 sectors every request on the disk is served |
| Fat.Reader.NextCluster | user/fatfs-all/fat.c:84-102 | Asks for the one table sector of the cluster, and returns its entry, with 65535 for every entry from 0xFFF8 on, if the cache serves that and all earlier requests |
| Fat.Reader.FindCluster | user/fatfs-all/fat.c:104-117 | Follows the table for as many clusters as the offset spans, past the end of the chain too; asks for the sectors of these entries, in order |
| Fat.FindClusterExactly | user/fatfs-all/fat.c:107-116 | The search gives what it should exactly when the chain does not end before the offset |
| Fat.PastTheEnd | user/fatfs-all/fat.c:110-111 | A concrete volume on which the search goes on to cluster 65535 instead of ending |
| Fat.Reader.FatRead | user/fatfs-all/fat.c:44-82 | The sectors a read asks for are those of the clusters met on the way; if both caches serve them after the earlier ones, it returns exactly the bytes found by following the table; on a disk of at most 65535 sectors that holds the clusters these are the bytes of the file; nothing else is written |
| Fat.Reader.ReadBytes | user/fatfs-all/fat.c:54-79 | The loop over sectors and clusters reads the planned sectors in order and copies their bytes to the right places |
| Fat.SmallDiskRead | user/fatfs-all/fat.c:54-79 | On a disk of at most 65535 sectors a read whose clusters and entries are on it is served, whatever was read before |
| Fat.ReadFile | user/fatfs-all/fat.c:44-82 | A new reader on such a disk reads exactly the bytes of a file at any offset and length, for every chain of clusters |
| Fat.FileReachable | user/fatfs-all/fat.c:104-117 | A read within a chain on the disk meets only clusters and entries on the disk |
| Fat.FoundIsFile | user/fatfs-all/fat.c:55-79 | As far as the file's chain reaches, these are the bytes of the file |
| Numbers.Format | lib/libh/src/stdio/vprintf.c:10-29 | The digits stand for the number, without a leading zero, in at most eleven places of the buffer |
| Numbers.Convert | lib/libh/src/stdio/vprintf.c:86-139 | Digits, sign and prefix of every 32-bit number fit into the 32-byte buffer in front of its closing zero; for each conversion, which sign or mark stands in front, which digits follow, and that in base 10, 16 or 8 they stand for the number |
| Numbers.DigitsMean | lib/libh/src/stdio/vprintf.c:12 | The sixteen digits stand for 0 to 15, in either case |
| Numbers.SignedReadsBack | lib/libh/src/stdio/vprintf.c:93-108 | A signed conversion reads back as the signed number, the smallest one included |
| Numbers.GetN | lib/libh/src/stdio/vprintf.c:31-47 | Skips exactly the digits and returns their value modulo 2^32 |
| Numbers.RoundTrip | lib/libh/src/stdio/vprintf.c:25-47 | Parsing what was formatted in decimal, whatever follows it, gives the number back |

## Left out
- Processes.Process.ThreadNew: gives every thread a record of its own; that the code clears the rest of the page behind it is in `Records.RecordsSurviveExactly`.
- MailSlots.PrependToEmpty: shows why new threads start with the end mark in `head` here, although the code clears the record to zero.
- Kernels.Kernel.SyscallDrop: a null destination is not a step of the state machine, because it depends on what lies at address zero; `KernelRendezvous.NullDropExactly` says what it does.
- Kernels.Kernel.SyscallKill: the message to the process manager afterwards is a separate kernel-message step.
- Kernels.Kernel.ProcessKill: the thread records go at once instead of one by one; the address space is destroyed in `Teardown.DirDestroy`.
- AddressSpaces.Spaces.VirtualIsMapped: ranges may not reach into the very last page, behind which the loop starts again at zero.
- AddressSpaces.Spaces.Map: in the last 4MB, where it would make any frame a page table, mapping is not modelled, nor are the range operations that map or unmap there; unmapping one page is `Windows.UnmapWindow`.
- AddressSpaces.Spaces.TableFor: like `Map`, not for pages of the last 4MB.
- AddressSpaces.Spaces.Unmap: likewise; there `Windows.UnmapWindow` says what happens.
- AddressSpaces.Spaces.VirtualUnmap: likewise, no ranges that reach into the last 4MB.
- AddressSpaces.Spaces.VirtualShare: likewise, for both ranges.
- Vmaps.SyscallVmap: an accepted destination may not lie in the last 4MB, from where the range would wrap around.
- Grants.SyscallGrant: for the same reason, the ranges of a grant that is accepted may not reach into the last 4MB.
- Delivery.Receive: a payload is not written into the last 4MB, where it would change page tables.
- AddressSpaces.Spaces.PagingInit: takes new tables to be blank, although the code does not clear the tables of the kernel's part, and does not map the kernel's own image, whose frames have no counts.
- AddressSpaces.Spaces.VirtualAlloc: no ranges that reach into the last 4MB; the clearing of the memory is in `Payload.AllocCleared`.
- Payload.CopyPayload: a piece is read before it is written; where the two ranges share bytes, only what changes is stated.
- Fat.Reader.FatRead: one volume per reader, since the caches are not keyed by volume; sectors that cannot be read are outside the contract.
- Heaps.Heap.Realloc: a failed inner allocation, which the code does not notice, is reported as `ok` being false.
- Write, user and global bits of page-table entries, temporary mappings and TLB invalidation.
- `virtual_map` and the pmap system call: device frames without a reference count.
- The release system call: it destroys a thread that is still in the run queue, against its own assertion.
- The share, accept and unmap system calls: thin checks around the modelled range operations.
- Boot code, ELF and module loading, interrupt and timer hardware, services and IRQ routing.
- `fat_enumerate` and directory entries, and the directive parser of `vprintf`: easy or mostly formatting.
- User servers and drivers, and the string functions of the library.
