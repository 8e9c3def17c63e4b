# Verified models of the MINIX course tree

This project models five independent parts of the repository in Dafny and proves what their
code keeps, computes and promises. `dafny verify dfyconfig.toml` checks all of it.

1. **Kernel message passing and ready queues** (`kernel/proc.c`, `proc.h`, `ipc.h`, `system.c`,
   `debug.c`). `KernelState` to `KernelRuns` and `ProcessExit` give the operations on values and
   prove what they keep, step by step and over whole runs. `IpcMeaning` says what each call does in
   the fields of the table, one if-and-only-if for every code it can return, and `KernelPromises`
   what follows for steps and runs: who is handed what, what answers a SENDREC, who may send to
   whom. `ProcTable` is the code: it updates the process table, the chained ready and caller
   queues, and their heads and tails in place, and each method is proved to compute the operation
   on values. `Debug` is `runqueues_ok` on arbitrary tables. Termination of `deadlock()` and acyclicity of the blocked-on graph need each
   other, and are proved together: a rank that every edge decreases is part of the invariant.
2. **The allocator** (`asn1/malloc.c`). `HeapSpec` has the block list as a sequence, `Heap` the
   headers in memory and the moving break.
3. **The AHCI port driver** (`drivers/drivers/ahci/ahci.c`; Serial ATA AHCI 1.3, section 4.2.3.3
   for the PRD table). `AhciPort` is the port state machine, `AhciRuns` its invariants over runs,
   `AhciMeaning` what its operations come to in terms of the events, `Ahci` the handlers that
   update a port in place. `AhciPrdt` is the DMA table arithmetic.
4. **The dining philosophers** (`asn3/dine.c`) as interleaved instructions, for any number of
   philosophers: `Philosophers`.
5. **Two smaller pieces**: the scatter list cut at 64K boundaries in `at_wini.c` (`Scatter`,
   `WiniDma`; Programming Interface for Bus Master IDE Controller, section 1.2) and the
   shared interrupt lines of `kernel/interrupt.c` (`InterruptLines`, `HookLists`, `Interrupts`).

What the environment decides is a parameter: whether a copy from user memory succeeds, whether
`sbrk` grants memory, what the AHCI registers and the identification data show during a handler,
which interrupts and timeouts arrive during a wait, how buffers are mapped, which handlers
return true, and who takes the next step.

## Where the code does less than it seems to

Each of these is a lemma that says exactly when the promise holds.

- A process may receive from itself: no check stops it, and it then waits for itself for ever
  (`KernelRuns.AcyclicUnlessSelfReceive`). Sending to oneself is stopped by the send mask.
- `sched_proc` accepts the priority NR_SCHED_QUEUES, one past the last queue
  (`ReadyQueues.SchedProcKeeps`).
- `sched_proc` does not compare the current process with the others, so that it can go on running
  unmarked although a better one is runnable (`ReadyQueues.ReschedulePriority` and
  `KernelRuns.StepKeeps` say exactly when; `KernelRuns.RunLosesPriority`).
- `clear_ipc_refs` unblocks those who were sending to the dead process but leaves them on its
  caller queue (`ProcessExit.ClearEndpointEffect`).
- An expired quantum cannot be reported to a scheduler that is itself blocked on the process, and
  the kernel panics (`KernelRuns.NoTimeRefusedIff`, `KernelRuns.RunPanics`).
- A receive from one source overlooks its pending notification when a lower bit of the same
  chunk is set (`IpcRuns.ScanSource`).
- `malloc` rounds the last 15 sizes to zero (`HeapSpec.AlignedCovers`), and `realloc`, when it
  grows backward, returns a block that is still marked free (`HeapSpec.ReallocInPlaceLive`).
- `request_mem` passes its `size_t` to `sbrk` as an `intptr_t`, so that a rounded request of 2^63
  bytes or more lowers the break. A free last block then shrinks, retry after retry, past the two
  extensions that are enough otherwise; behind an allocated one a header is written past the
  break; and no number of extensions leads to a tiled heap in which the request fits
  (`HeapSpec.ServedIff`, `HeapSpec.HugeShrinks`, `HeapSpec.HugeUntiles`).
- The table in `ahci.c` says that a BAD_DEV port has PxIE = PRCE. After a failed signature check
  the code leaves all interrupts off, so that the port never notices another device
  (`AhciRuns.RunDeafens`, `AhciRuns.LeavesBadDevIff`). The model follows the code.
- An ATAPI device that is swapped for an ATA device during the readiness check of a first open
  leaves the ATA device without its medium flag, and the table read of the next open fails the
  assertion in `port_transfer` (`AhciRuns.MediumLostIff`, `AhciRuns.HaltsIff`,
  `AhciRuns.SwapHalts`).
- The padding of a PRD table is right only for sector sizes that divide 2^32, or requests within
  one sector (`AhciPrdt.PaddingFits`, `AhciPrdt.Sector520`).
- A comment in `port_transfer` takes the size of a request to be even because every element is, but
  the cut at the end of the partition can leave an odd number of bytes, and an odd entry in the
  table (`AhciPrdt.LimitedEvenIff`, `AhciPrdt.AlignedIff`, `AhciPrdt.OddCut`).
- `put_irq_handler` does not look whether the hook is on another line: that line then loses the
  hooks behind it (`InterruptLines.PutKeepsIff`, `HookLists.PutHomedIff`).
- With a single philosopher the forks coincide and the program deadlocks
  (`Philosophers.DeadlockIff`).

## Model

| member | source | states |
|---|---|---|
| ReadyQueues.DequeueKeeps | kernel/proc.c:1252-1289 | taking a process that lost its runnability off its queue restores: a slot is on a ready queue exactly once, on that of its priority, iff it has no flags |
| ReadyQueues.AppendKeeps | kernel/proc.c:1184-1193 | a slot that just became runnable is on no queue, and putting it at the tail (enqueue) or at the head (enqueue_head) of the queue of its priority restores the ready-queue invariant |
| ReadyQueues.EnqueueKeeps | kernel/proc.c:1164-1208 | enqueue, with the nested RTS_SET that preempts the current process and so dequeues it, keeps the ready-queue invariant and changes nothing but flags and queues |
| ReadyQueues.RtsSetKeeps | kernel/proc.h:180-187 | RTS_SET keeps the ready-queue invariant and the priority guarantee; its slot gains exactly the given flags |
| ReadyQueues.RtsUnsetKeeps | kernel/proc.h:190-198 | RTS_UNSET keeps the ready-queue invariant; its slot loses exactly the given flags, the current process may gain PREEMPTED, nobody else changes |
| ReadyQueues.RtsUnsetPriority | kernel/proc.c:1195-1203 | making a process runnable keeps: a preemptible current process with a strictly better runnable one carries PREEMPTED |
| ReadyQueues.RtsSetMeaning | kernel/proc.h:180-187 | RTS_SET takes a process that was runnable out of its place on the queue of its priority, everybody else staying in order, and leaves the queues alone otherwise |
| ReadyQueues.RtsUnsetMeaning | kernel/proc.c:1164-1208 | a process that loses its last flag goes to the tail of the queue of its priority; the current process is marked PREEMPTED, and leaves its queue if it was on one, exactly when it is preemptible and strictly worse; every order stays as it was |
| ReadyQueues.PickFromIsFirst | kernel/proc.c:1333-1350 | the search returns the head of the first non-empty queue, and nothing iff all are empty |
| ReadyQueues.PickIsBest | kernel/proc.c:1320-1351 | no runnable process has a better priority than the one picked, which heads its queue; none is picked iff none is runnable |
| ReadyQueues.RequeueKeeps | kernel/proc.c:122-131 | clearing PREEMPTED and re-queueing at the front or back keeps the ready-queue invariant and touches only the current slot |
| ReadyQueues.SwitchKeeps | kernel/proc.c:122-144 | the picking path keeps the ready queues, establishes the priority guarantee whatever was the case before, and chooses a runnable process or, if there is none, the idle one |
| ReadyQueues.PreemptedReturns | kernel/proc.c:123-130 | a preempted process with time left goes to the front of its own queue and runs on if nobody is better; without time left it goes to the back |
| ReadyQueues.SchedProcKeeps | kernel/system.c:641-666 | which arguments sched_proc accepts and what it stores; it keeps the ready queues exactly when the accepted priority is a queue number (its test also admits NR_SCHED_QUEUES) |
| ReadyQueues.ReschedulePriority | kernel/system.c:655-663 | re-prioritising anybody but the current process keeps the priority guarantee; for the current one it holds afterwards exactly when that one is not preemptible, already marked as preempted, or nobody else that is runnable is better than its new priority |
| ReadyQueues.RescheduleMeaning | kernel/system.c:655-666 | the slot gets the new priority, the quantum both as allotment and as time left, and loses NO_QUANTUM; if it is runnable then, it is the last on its new queue |
| WaitGraph.RankDecreases | kernel/proc.c:474-519 | along the blocked-on chain of an acyclic table a rank decreases: why the walk of deadlock() ends |
| WaitGraph.AcyclicHasNoCycle | kernel/proc.h:155-172 | a ranked blocked-on graph has no cycle of any length |
| WaitGraph.AddEdge | kernel/proc.c:584-610 | blocking c on d keeps the graph acyclic when the chain from d does not lead to c |
| WaitGraph.CycleClosedIff | kernel/proc.c:485-517 | blocking c on d closes a cycle exactly when the chain from d leads back to c |
| WaitGraph.ReachesMeaning | kernel/proc.c:485-517 | the chain walked by deadlock() leads from one process to another exactly when there is a list of slots, each blocked on the next, from the one to the other |
| WaitGraph.NoCycleMeaning | kernel/proc.h:155-172 | no list of slots, each blocked on the next, comes back to where it began |
| IpcInvariants.FlatHandOverKeeps | kernel/proc.c:550-573 | handing a message to a waiting receiver keeps all message-passing invariants |
| IpcInvariants.FlatParkKeeps | kernel/proc.c:584-610 | blocking a sender and queueing it keeps caller queues, history, rendezvous and acyclicity, given that the chain from its partner does not reach it |
| IpcInvariants.ParkOrder | kernel/proc.c:606-610 | appending at the end keeps every caller queue in the order in which the sends were accepted |
| IpcInvariants.FlatTakeFromKeeps | kernel/proc.c:709-748 | taking the k-th queued message keeps all invariants, also when the sender goes on to receive its reply (a SENDREC whose edge turns from sending to receiving) |
| IpcInvariants.TakeFromQueues | kernel/proc.c:745-746 | unlinking the sender keeps: a process is on a caller queue, once, iff it is blocked sending to its owner |
| IpcInvariants.TakeFromHistory | kernel/proc.c:719-724 | the receipt added when a queued message is copied into the delivery slot names the accepted send, which had none yet, its sender and its text; every other accepted send keeps its receipt or its blocked sender |
| IpcInvariants.FlatBlockKeeps | kernel/proc.c:756-764 | blocking to receive keeps all invariants when nothing acceptable is waiting and no cycle is closed |
| IpcInvariants.FlatNotifyKeeps | kernel/proc.c:798-814 | delivering a notification to a waiting process keeps all invariants |
| IpcInvariants.HandOverKeeps | kernel/proc.c:550-573 | the same with RTS_UNSET and its nested preemption: ready queues, priority guarantee and message passing together |
| IpcInvariants.ParkKeeps | kernel/proc.c:589-610 | the same for the blocking branch of mini_send with RTS_SET |
| IpcInvariants.TakeFromKeeps | kernel/proc.c:714-747 | the same for taking a queued message |
| IpcInvariants.BlockReceivingKeeps | kernel/proc.c:756-764 | the same for blocking to receive |
| IpcRuns.ScanAny | kernel/proc.c:661-692 | for ANY the bitmap scan returns the lowest pending notification, and nothing iff none is pending |
| IpcRuns.ScanSource | kernel/proc.c:665-676 | for one source the scan finds it exactly when it is the lowest pending bit of its chunk: otherwise a pending notification is not seen |
| IpcRuns.LongestWaitingServed | kernel/proc.c:709-750 | a receiver takes the acceptable sender whose send was accepted first, and if it finds none no blocked sender was acceptable |
| IpcRuns.MiniSendKeeps | kernel/proc.c:525-617 | mini_send keeps the kernel invariant, extends the history, fills only empty delivery slots, and an error changes nothing |
| IpcRuns.MiniReceiveKeeps | kernel/proc.c:622-773 | the same for mini_receive, for every source, also in the second half of a SENDREC that is still sending |
| IpcRuns.ReceiveMayBlock | kernel/proc.c:656-764 | when mini_receive gets as far as blocking, no acceptable sender or notification was there: no missed rendezvous |
| IpcRuns.MiniNotifyKeeps | kernel/proc.c:778-823 | mini_notify, delivered or remembered, keeps the kernel invariant and the history |
| IpcRuns.NotifyArrives | kernel/proc.c:778-823 | a notification is delivered to a waiting target, or pending with it; nobody else is concerned |
| IpcRuns.NotificationTaken | kernel/proc.c:656-693 | a receive leaves all pending notifications alone, or takes one acceptable one of the caller and delivers it from its source |
| IpcRuns.DoSyncIpcKeeps | kernel/proc.c:257-375 | every synchronous call by the running process, whatever its arguments, keeps the kernel invariant; only a receive from oneself is excluded |
| IpcRuns.SendrecKeeps | kernel/proc.c:346-362 | once the send half of SENDREC was accepted its receive half cannot fail |
| IpcMeaning.SendMeaning | kernel/proc.c:525-617 | for every code of mini_send the exact condition, in the fields of the table: the message is handed over exactly to a partner that is blocked receiving, has nothing left to send, and waits for ANY or this caller; a non-blocking send to any other partner is ENOTREADY; a blocking one is refused exactly if the partner waits for the caller; what hand-over and queueing change in which slot, and that a refusal changes nothing |
| IpcMeaning.ReceiveMeaning | kernel/proc.c:622-773 | the same for mini_receive: a notification first, if the caller is neither sending nor waiting for a reply; then the acceptable sender that has been blocked for longest; then blocking; with each refusal exactly when |
| IpcMeaning.NotifyMeaning | kernel/proc.c:778-823 | a notification is put into the slot of a target that is blocked receiving from ANY or this source and waits for no reply; otherwise, and only then, its bit is set |
| IpcMeaning.CheckMeaning | kernel/proc.c:266-344 | for every code of the checks the exact condition, in their order: EINVAL for ANY except in a receive, EDEADSRCDST for a slot that is not live, ECALLDENIED for one outside the send mask, ETRAPDENIED for a call outside the trap mask or a call other than SENDREC and RECEIVE to a task, and OK otherwise |
| IpcMeaning.SendnbNeverBlocks | kernel/proc.c:580-582 | the caller of SENDNB has neither SENDING nor RECEIVING afterwards, whatever the outcome, and a refusal changes nothing |
| IpcMeaning.SendnbNotReady | kernel/proc.c:580-582 | SENDNB returns ENOTREADY if and only if it passes the checks and the partner has an endpoint but is not waiting for the caller |
| IpcMeaning.SendrecMeaning | kernel/proc.c:346-362 | for every code of SENDREC the exact condition; once accepted, the caller is blocked receiving from the partner with nothing in its slot and its notifications untouched, and the partner has the message or the caller is last on its queue |
| IpcMeaning.ReceiveTrapMeaning | kernel/proc.c:356-362 | RECEIVE ends the wait for a reply that an earlier SENDREC may have left behind, so that a pending notification it can see is taken; with each refusal exactly when |
| KernelPromises.StepWaited | kernel/proc.c:550-573 | in every kernel step a process that is blocked receiving stays so, with notifications at most remembered, or is handed a message or notification from a source it waits for; no notification if it waits for a reply |
| KernelPromises.StepFree | kernel/proc.c:656-750 | in every step the slot of any other process is as it was, is emptied by delivery, or is filled by its own receive from a source that it named |
| KernelPromises.StepAddressed | kernel/proc.c:525-823 | whatever a step puts into a slot, and every receipt it adds, comes from a source that the receiver named, or it named nobody |
| KernelPromises.AwaitsRun | kernel/proc.c:658-659 | over every run: a process that waits for the reply to a SENDREC stays blocked, its slot empty and its notifications kept, until the partner sends to it |
| KernelPromises.SendrecAnswered | kernel/proc.c:346-362 | over every run from an accepted SENDREC: nothing but a message of the partner is put into the slot of the caller, no notification and nobody else's message before it |
| KernelPromises.StepFixed | kernel/proc.c:257-375 | no step changes the send or trap mask of a process, its scheduler, or whether it is preemptible |
| KernelPromises.TrapPermitted | kernel/proc.c:312-344 | a SEND, SENDNB, SENDREC or NOTIFY that returns OK had its partner in the send mask and the call in the trap mask, and no task as partner unless it was a SENDREC |
| KernelPromises.SendsPermitted | kernel/proc.c:312-344 | over every run: each accepted send was allowed by the masks of its sender in this way, or told the sender's scheduler about its quantum |
| KernelPromises.StepRings | kernel/proc.c:778-823 | in every step: a notification that a process has, pending or in its slot, was there before, was sent by the kernel in that step, or was sent by a process whose masks allow it |
| KernelPromises.NoticesPermitted | kernel/proc.c:312-344 | the same over every run |
| KernelRuns.RefusedIffCycle | kernel/proc.c:584-610 | at both places that call deadlock(), the chain from the partner leads back to the caller exactly when blocking would close a cycle |
| KernelRuns.AcyclicUnlessSelfReceive | kernel/proc.c:257-375 | a synchronous call leaves the blocked-on graph acyclic if and only if it is not a permitted receive from oneself, which no check refuses |
| KernelRuns.SelfReceiveBlocks | kernel/proc.c:756-764 | a receive from oneself is accepted and blocks the caller on itself |
| KernelRuns.NoTimeRefusedIff | kernel/proc.c:1416-1437 | the out-of-quantum message is refused, on which the code panics, if and only if the scheduler of a preemptible process is another one, is not receiving from it, and is blocked on it, directly or through others |
| KernelRuns.NoTimeKeeps | kernel/proc.c:1439-1456 | otherwise it is accepted and keeps all invariants, although its sender just left the ready queues |
| KernelRuns.RunPanics | kernel/proc.c:1433-1436 | a run from boot into that panic: the scheduler sends to the process, which then uses up its quantum |
| KernelRuns.QuantumReported | kernel/proc.c:1416-1456 | an expired quantum is reported to the scheduler in the name of the process, which stops being runnable, or is renewed |
| KernelRuns.StepKeeps | kernel/proc.c:105-144 | every kernel step (trap, kernel notification, expired quantum, delivery, switch, re-scheduling, stopping and resuming, clock) keeps all invariants; it keeps the priority guarantee exactly when it is not a sched_proc giving the current process a priority that is not the best; only delivery empties a message slot |
| KernelRuns.StepSends | kernel/proc.c:525-617 | the history of sends grows by exactly the caller, partner and text of a SEND, SENDNB or SENDREC that returned OK, or of an out-of-quantum message, and by nothing in any other step |
| KernelRuns.StepDelivers | kernel/proc.c:525-773 | in every step, what a process takes out of its delivery slot and what is then in it (notifications aside) is what was in it before followed by exactly the letters of the receipts the step adds for that process |
| KernelRuns.BootedKeeps | kernel/proc.c:1164-1208 | the state at boot satisfies all invariants |
| KernelRuns.RunKeeps | kernel/proc.c:257-375 | every run keeps all invariants and only extends the history |
| KernelRuns.MessageSafety | kernel/proc.c:525-773 | over every run from boot: no blocked-on cycle; caller queues hold exactly the blocked senders, once; the sends are exactly those of the calls that returned OK, in order; each is delivered or pending, not both, at most once, unaltered, to its addressee; what each process has taken from its delivery slot, followed by what is in it, is exactly what was delivered to it, in order; no missed rendezvous |
| KernelRuns.SchedulingSafety | kernel/proc.c:1164-1351 | over every run from boot: a slot is on queue q exactly once iff it is runnable with priority q; and the priority guarantee, if no step gives the current process a priority that is not the best |
| KernelRuns.RunLosesPriority | kernel/system.c:655-663 | a run from boot, of one sched_proc for the current process, after which a better process is runnable and the current one is not marked as preempted |
| ProcessExit.ClearRefsEffect | kernel/system.c:586-605 | the loop unblocks exactly those blocked on the dead process and leaves the others blocked as they were |
| ProcessExit.ClearEndpointEffect | kernel/system.c:551-606 | afterwards nobody is blocked on the dead process, the graph is acyclic, the ready queues are right; the caller queues are right exactly when nobody was queued on the dead process |
| ProcessExit.ExitMeaning | kernel/system.c:551-606 | clear_endpoint slot by slot: the dead process has no endpoint and is blocked on nobody, its notification bit is pending nowhere, those blocked on it lose SENDING and RECEIVING, and nothing else in the table changes |
| Chains.ChainCut | kernel/proc.c:1274-1284 | redirecting the one cell that points at position k leaves the chain without that slot |
| LinkedQueues.ReadyCut | kernel/proc.c:1273-1284 | the pointer updates of dequeue (chain, head, tail) show exactly the queues without the process |
| LinkedQueues.ReadyAppend | kernel/proc.c:1184-1193 | the pointer updates of enqueue show exactly the queues with the process at the tail |
| LinkedQueues.ReadyPush | kernel/proc.c:1235-1242 | the pointer updates of enqueue_head (the head assignment runs in both cases) show the queues with the process in front |
| LinkedQueues.CallersAppend | kernel/proc.c:608-610 | hanging the sender at the end of p_caller_q shows the queue extended by it |
| LinkedQueues.CallersCut | kernel/proc.c:745-746 | redirecting the cell that points at the sender shows the queue without it |
| ProcTable.Kernel.constructor | kernel/proc.h:21-30 | a table of slots none of which is runnable or sending, with empty queues, is a valid start |
| ProcTable.Kernel.Dequeue | kernel/proc.c:1252-1289 | the pointer-chasing loop computes the specified dequeue on chain, head and tail |
| ProcTable.Kernel.Enqueue | kernel/proc.c:1164-1208 | computes the specified enqueue, with the nested preemption |
| ProcTable.Kernel.EnqueueHead | kernel/proc.c:1219-1247 | computes the specified enqueue_head |
| ProcTable.Kernel.RtsSet | kernel/proc.h:180-187 | computes the specified RTS_SET |
| ProcTable.Kernel.RtsUnset | kernel/proc.h:190-198 | computes the specified RTS_UNSET |
| ProcTable.Kernel.PickProc | kernel/proc.c:1320-1351 | returns the head of the best non-empty queue |
| ProcTable.Kernel.SwitchToUser | kernel/proc.c:122-144 | computes the specified choice of the next process |
| ProcTable.Kernel.SchedProc | kernel/system.c:641-666 | computes the specified sched_proc for the priorities that are queues (and those it refuses) |
| ProcTable.Kernel.RunqueuesOk | kernel/debug.c:17-110 | on a table with the ready-queue invariant the kernel's own check returns 1 |
| ProcTable.Kernel.Deadlock | kernel/proc.c:474-519 | the walk terminates; non-zero is the length of the way from the partner back to the caller, and zero means there is no such way, or the two-process exception |
| ProcTable.SendNeverExcused | kernel/proc.c:491-501 | when mini_send calls deadlock(), the two-process exception is never the reason for zero |
| ProcTable.ReceiveNeverExcused | kernel/proc.c:491-501 | nor is it when mini_receive does |
| ProcTable.Kernel.AppendCaller | kernel/proc.c:606-610 | walks to the end of the caller queue and appends |
| ProcTable.Kernel.MiniSend | kernel/proc.c:525-617 | code and new state are those specified, for every partner and both copy outcomes; no process that is not sending has a queue link |
| ProcTable.Kernel.FindSender | kernel/proc.c:709-750 | finds the first acceptable sender and the cell before it |
| ProcTable.Kernel.ScanNotifications | kernel/proc.c:661-692 | computes the chunk-wise scan |
| ProcTable.Kernel.MiniReceive | kernel/proc.c:622-773 | code and new state are those specified |
| ProcTable.Kernel.MiniNotify | kernel/proc.c:778-823 | code and new state are those specified |
| ProcTable.Kernel.CheckCall | kernel/proc.c:266-344 | the refusal is the one of the first check that fails |
| ProcTable.Kernel.DoSyncIpc | kernel/proc.c:257-375 | code and new state are those specified for all five calls |
| ProcTable.Kernel.Sendrec | kernel/proc.c:346-362 | the fall-through: reply pending, send, and receive if that went well |
| ProcTable.Kernel.NotifyScheduler | kernel/proc.c:1416-1437 | off the ready queues first, then a message in the process's name |
| ProcTable.Kernel.ProcNoTime | kernel/proc.c:1439-1456 | tells the scheduler or refills the quantum, as specified |
| ProcTable.Kernel.ClearIpc | kernel/system.c:520-546 | takes the dying process off the queue it waits on |
| ProcTable.Kernel.ClearIpcRefs | kernel/system.c:579-606 | the loop over the table computes the specified clearing |
| ProcTable.Kernel.ClearEndpoint | kernel/system.c:551-574 | computes the specified clear_endpoint |
| Debug.RunqueuesOk | kernel/debug.c:17-110 | on any tables whose tail pointers are null or point into the process table it returns 1 if and only if head, tail and links form queues that hold exactly the runnable slots, each on the queue of its priority |
| HeapSpec.LivePayloadsDisjoint | asn1/malloc.c:62-88 | payloads are 16-aligned, inside the heap, and never overlap another block |
| HeapSpec.AlignedCovers | asn1/malloc.c:42 | the rounded size covers the request exactly for sizes up to SIZE_MAX - 15; above it is zero |
| HeapSpec.ExtensionsStep | asn1/malloc.c:94-127 | if the rounded size is below 2^63, an extension is made only when no block fits, and brings the number of extensions still needed down by one |
| HeapSpec.ExtensionsSuffice | asn1/malloc.c:94-127 | then after at most two extensions some block fits, although a fresh chunk may be smaller than the request by its header |
| HeapSpec.ExtensionsMeaning | asn1/malloc.c:94-127 | how many extensions a request takes, in numbers: none if a free block is large enough; one if not, and the last block is free or the request leaves room for a header in a chunk of 64K; two otherwise |
| HeapSpec.MovedTimesMeaning | asn1/malloc.c:94-127 | how far they move the break: each time by the request, but by at least 64K |
| HeapSpec.ExtendKeeps | asn1/malloc.c:105-125 | extending the heap by less than 2^63 bytes moves the break up by as much and keeps: the blocks tile it without gap or overlap, and no two neighbours are both free |
| HeapSpec.ExtensionsTile | asn1/malloc.c:94-127 | so does extending it as often as is needed |
| HeapSpec.ServedIff | asn1/malloc.c:94-127 | for every heap and rounded size: two granted extensions, or any number, lead to a tiled heap with a block that fits if and only if some block fits already or the size passed to sbrk, an intptr_t, is below 2^63 |
| HeapSpec.HugeShrinks | asn1/malloc.c:365-375 | a request of 2^64 - d bytes moves the break down by d; a free last block loses d bytes in each retry, for as long as it has them, and does not get to fit |
| HeapSpec.HugeUntiles | asn1/malloc.c:105-125 | if the last block is allocated, the header of the new chunk is written behind the lowered break: the blocks no longer tile the heap |
| HeapSpec.HugeRequest | asn1/malloc.c:365-375 | a concrete request, 2^64 - 48 bytes from a fresh heap, that is extended three times without being served |
| HeapSpec.CarveKeeps | asn1/malloc.c:63-81 | allocating and splitting keeps the same, and the block returned is allocated, where the free one was, and large enough |
| HeapSpec.CarveMeaning | asn1/malloc.c:63-81 | of the free block taken exactly the rounded request stays allocated if 48 bytes or more are left over, and a free block of those minus 32 follows; otherwise the whole block is, so that no allocation has 48 bytes more than were asked for |
| HeapSpec.ReleaseKeeps | asn1/malloc.c:202-222 | freeing and merging with both neighbours keeps the same |
| HeapSpec.ReleaseUndoesCarve | asn1/malloc.c:202-222 | freeing what a malloc that did not extend the heap returned restores the block list exactly |
| HeapSpec.OwnerUnique | asn1/malloc.c:191-200 | a pointer into a payload identifies one block |
| HeapSpec.AllocateThenFree | asn1/malloc.c:184-222 | the exact undo holds through any address inside the payload |
| HeapSpec.ReleaseLive | asn1/malloc.c:184-222 | free leaves every other allocation as it was |
| HeapSpec.CarveLive | asn1/malloc.c:62-88 | malloc leaves every allocation as it was |
| HeapSpec.ReallocInPlaceLive | asn1/malloc.c:283-310 | the block realloc returns in place is marked allocated, at its old address, exactly when it did not grow backward |
| Heap.Allocator.Sbrk | asn1/malloc.c:365-375 | what the allocator assumes of sbrk: it moves the break by the signed increment and returns the old one, or refuses and changes nothing |
| Heap.Allocator.InitHeap | asn1/malloc.c:330-363 | aligns the break, makes one free block of the first chunk, or fails because the system refused |
| Heap.AlignUpMeaning | asn1/malloc.c:130-138 | the heap starts at the first multiple of 16 that is not below the break |
| Heap.BreakAligned | asn1/malloc.c:130-138 | while the blocks tile the heap the break is aligned, so that after init_heap the growth branch of align_heap is never taken |
| Heap.Allocator.FindFit | asn1/malloc.c:59-92 | finds the first fitting block, or else the last block of the list |
| Heap.Allocator.Take | asn1/malloc.c:63-81 | marking, splitting and relinking in memory shows the carved list, prev mirroring next |
| Heap.Allocator.Grow | asn1/malloc.c:99-125 | linking a new chunk behind the last block, merged if that is free, shows the extended list |
| Heap.Allocator.Malloc | asn1/malloc.c:40-128 | for sizes whose rounding is below 2^63 the recursive retry terminates; it fails only if the system refused memory, and otherwise extends the heap as little as possible, takes the first block that fits, cuts off exactly the rounded size if 48 bytes or more are left over, and returns the address behind the header |
| Heap.Allocator.Absorb | asn1/malloc.c:207-213 | swallowing the next block in memory shows the merged list |
| Heap.Allocator.FindOwner | asn1/malloc.c:191-200 | finds the block whose payload holds the pointer |
| Heap.Allocator.Free | asn1/malloc.c:184-222 | shows the released list, for any pointer into a payload |
| Heap.Allocator.Calloc | asn1/malloc.c:229-255 | refuses exactly the zero and overflowing products, else does what malloc does for the product (if that can be rounded below 2^63) |
| Heap.Allocator.Realloc | asn1/malloc.c:257-328 | every other allocation stays and the result holds the new size; a block that is large enough stays where and as it is, one that is with the free block behind it swallows that one, any other is freed after malloc and copy and leaves no block at its address; a failure keeps the old block |
| Heap.MallocLive | asn1/malloc.c:40-128 | a served request leaves all live blocks in place and returns one that is none of them; a refused one leaves them too |
| Heap.AllocatedTightly | asn1/malloc.c:40-128 | whatever the heap and however often it was extended: the block that malloc returns has the rounded size or at most 47 bytes more |
| AhciRuns.SigCheckKeeps | drivers/drivers/ahci/ahci.c:1158-1237 | the signature check, with its fall-through after a restart, keeps the port invariant and the barrier |
| AhciRuns.ConnectKeeps | drivers/drivers/ahci/ahci.c:1335-1356 | connecting a port that nobody can be using keeps the port invariant |
| AhciRuns.IntrKeeps | drivers/drivers/ahci/ahci.c:1394-1459 | an interrupt keeps: busy ports have a set timer, waiting ports are busy, the interrupt mask fits the state, no failure is pending on a busy port |
| AhciRuns.ExpireKeeps | drivers/drivers/ahci/ahci.c:1464-1538 | so does a timeout |
| AhciRuns.ExecKeeps | drivers/drivers/ahci/ahci.c:1603-1630 | a command never succeeds if the port was disconnected while it was waited for, even if a new device was identified meanwhile; otherwise device and medium are still the same |
| AhciRuns.SessionKept | drivers/drivers/ahci/ahci.c:1543-1574 | a working port stays working with the same medium through any wait, unless it is disconnected |
| AhciRuns.TransferKeeps | drivers/drivers/ahci/ahci.c:2332-2361 | a transfer request keeps the invariants and is issued only past the barrier |
| AhciRuns.CheckMediumKeeps | drivers/drivers/ahci/ahci.c:370-400 | the medium check returns OK only for an accessible port with a medium |
| AhciRuns.OpenKeeps | drivers/drivers/ahci/ahci.c:2229-2288 | DEV_OPEN keeps the invariants, whether deferred, refused, first or repeated |
| AhciRuns.DoKeeps | drivers/drivers/ahci/ahci.c:1394-1630 | every action of the driver on a port keeps both invariants |
| AhciRuns.BarrierSafety | drivers/drivers/ahci/ahci.c:1361-1389 | over every run from port_init: between a disconnection and a later transfer the barrier was cleared by a first open, with nobody having the port open |
| AhciRuns.HaltsIff | drivers/drivers/ahci/ahci.c:973-975 | where an assertion of port_transfer can fail and end the driver: exactly at the first table read of a first open of an ATA device without its medium flag, if transfers come only for open ports whose device has a medium |
| AhciRuns.CanHaltIff | drivers/drivers/ahci/ahci.c:2252-2276 | a next open can end the driver if and only if an ATA device has lost its medium flag |
| AhciRuns.AssertionsHold | drivers/drivers/ahci/ahci.c:973-975 | over every run from port_init in which no open loses the flag and transfers come only for open ports: every transfer that reaches the assertions, also inside a first open, finds its medium and a positive sector size |
| AhciRuns.OpenPortUsable | drivers/drivers/ahci/ahci.c:973-975 | what port_transfer asserts holds for every accessible open port, and stays so while it is open |
| AhciRuns.FirstOpenKeeps | drivers/drivers/ahci/ahci.c:2252-2276 | a successful first open gives such a port if the device is ATAPI or has its medium flag |
| AhciRuns.ExpiriesDrop | drivers/drivers/ahci/ahci.c:1464-1538 | without PhyRdy changes every timer expiry brings a busy port nearer to the end of its wait |
| AhciRuns.WaitEnds | drivers/drivers/ahci/ahci.c:1543-1574 | a wait ends within sig_checks + 2 expiries from spin-up, left + 2 from the signature wait, one otherwise |
| AhciRuns.RefusedIsDeaf | drivers/drivers/ahci/ahci.c:1184-1217 | exactly when the signature check gives up, and that the port then has no interrupt enabled |
| AhciRuns.LeavesBadDevIff | drivers/drivers/ahci/ahci.c:1184-1217 | a BAD_DEV port can leave that state in some run if and only if PhyRdy changes still interrupt |
| AhciRuns.RunDeafens | drivers/drivers/ahci/ahci.c:1207-1217 | a run from port_init, of one timeout, into a BAD_DEV port with no interrupt enabled |
| AhciRuns.DeafForever | drivers/drivers/ahci/ahci.c:1207-1217 | such a port stays BAD_DEV in every run, against the state diagram |
| AhciRuns.CheckLosesMedium | drivers/drivers/ahci/ahci.c:379-389 | an ATA device loses its medium flag in the check exactly when it replaced the ATAPI device during the first command and stayed through the second |
| AhciRuns.MediumLostIff | drivers/drivers/ahci/ahci.c:2252-2259 | no other action loses the flag |
| AhciRuns.SwapLosesMedium | drivers/drivers/ahci/ahci.c:379-389 | a concrete run after which an ATA device lacks its medium flag |
| AhciRuns.SwapHalts | drivers/drivers/ahci/ahci.c:974 | that run, continued by one open: its table read fails the assertion |
| AhciMeaning.ExecMeaning | drivers/drivers/ahci/ahci.c:1603-1630 | a command on a working port succeeds if and only if the barrier was down, no event of its wait was a PhyRdy change, and the event that ended the wait was an interrupt with no error reported and, if fatal, no reset needed; so never by a timeout, nor when the device failed it; it raises the barrier exactly if the connection changed or the port was reset; a success changes nothing else |
| AhciMeaning.QuietWaits | drivers/drivers/ahci/ahci.c:1543-1574 | without PhyRdy changes a wait is any sequence of enabled interrupts without news followed by one event that ends the command, and nothing else |
| AhciMeaning.SignatureMeaning | drivers/drivers/ahci/ahci.c:1202-1237 | another signature disables the port; for an ATA or ATAPI one all flags but busy and barrier are set anew and the device is told to identify itself |
| AhciMeaning.IdentifiedMeaning | drivers/drivers/ahci/ahci.c:1263-1330 | a device works exactly if its identify command did, it is supported, and, if ATA, has sectors of 512 bytes or more; it is read-only exactly if it is an ATAPI CD-ROM, and has a medium exactly if it is ATA; a bad one leaves only PhyRdy interrupts enabled |
| AhciMeaning.RunReadonly | drivers/drivers/ahci/ahci.c:1219-1227 | over every run: only ATAPI devices are read-only, and none is before it was identified |
| AhciMeaning.WritesAllowed | drivers/drivers/ahci/ahci.c:2248-2250 | over every run from port_init: an ATA device is never refused for writing |
| AhciMeaning.BarrierRaisedIff | drivers/drivers/ahci/ahci.c:1361-1389 | a handler puts the barrier up if and only if the connection changed while a device was seen, or the port still hung after a fatal error, a timeout or the last look at the signature; and how an unplugged port looks afterwards |
| AhciMeaning.SignatureTries | drivers/drivers/ahci/ahci.c:1171-1200 | a device that shows no signature has it looked at again at every expiry, exactly as often as the count says; at the next one the port leaves that state |
| AhciMeaning.ConnectMeaning | drivers/drivers/ahci/ahci.c:1335-1356 | a newly connected one has its first look at once, then one fewer than sig_checks to go |
| AhciMeaning.SpinUpMeaning | drivers/drivers/ahci/ahci.c:1481-1507 | a port that does not spin up in time has no device, no barrier is put up and a deferred open goes on; one that turns out to be connected is handled as just connected |
| AhciMeaning.CheckMediumMeaning | drivers/drivers/ahci/ahci.c:370-400 | for every code of the medium check the exact condition, in the events of its commands and the answers of the device |
| AhciMeaning.OpenMeaning | drivers/drivers/ahci/ahci.c:2229-2288 | for every code of DEV_OPEN the exact condition; a refusal before the medium is asked for changes nothing, in particular not the barrier; a success counts one |
| AhciMeaning.TransferMeaning | drivers/drivers/ahci/ahci.c:2332-2361 | a transfer runs to its end if and only if the port works with its barrier down and has a medium, and its command succeeds |
| Ahci.PortDriver.constructor | drivers/drivers/ahci/ahci.c:1717-1752 | port_init gives the initial port, which has both invariants |
| Ahci.PortDriver.PortDisconnect | drivers/drivers/ahci/ahci.c:1361-1389 | computes the specified disconnection |
| Ahci.PortDriver.PortSigCheck | drivers/drivers/ahci/ahci.c:1158-1237 | computes the specified signature check |
| Ahci.PortDriver.PortIdCheck | drivers/drivers/ahci/ahci.c:1263-1330 | computes the specified identification; its two assertions hold |
| Ahci.PortDriver.PortConnect | drivers/drivers/ahci/ahci.c:1335-1356 | computes the specified connection |
| Ahci.PortDriver.PortIntr | drivers/drivers/ahci/ahci.c:1394-1459 | computes the specified interrupt handling; its assertion holds |
| Ahci.PortDriver.PortTimeout | drivers/drivers/ahci/ahci.c:1464-1538 | computes the specified timeout handling |
| Ahci.PortDriver.PortWait | drivers/drivers/ahci/ahci.c:1543-1574 | takes events exactly until the port is no longer busy |
| Ahci.PortDriver.PortExec | drivers/drivers/ahci/ahci.c:1603-1630 | issue, wait, cancel the timer; OK on a working port if and only if the barrier was down and the wait ended, undisturbed, by an interrupt without an error |
| Ahci.PortDriver.AtapiCheckMedium | drivers/drivers/ahci/ahci.c:370-400 | computes the specified medium check; OK exactly if the device answers, or reports a change of medium, and its medium is known or its capacity can be read |
| Ahci.PortDriver.AhciTransfer | drivers/drivers/ahci/ahci.c:2332-2361 | computes the specified transfer, which ends the driver at the assertions exactly when there is no medium or sector size; done exactly on a working port with barrier down, a medium and a command that succeeds |
| Ahci.PortDriver.AhciOpen | drivers/drivers/ahci/ahci.c:2229-2288 | computes the specified open; the count grows exactly on success; when it says ENXIO and EACCES |
| Ahci.PortDriver.AhciClose | drivers/drivers/ahci/ahci.c:2293-2310 | computes the specified close, EINVAL exactly for a port that is not open |
| Ahci.PortDriver.AhciIoctl | drivers/drivers/ahci/ahci.c:2383-2440 | a command is run only on a working port, and OK exactly if it succeeds there |
| AhciPrdt.SumIovec | drivers/drivers/ahci/ahci.c:846-878 | the exact total, with no wrap, or an error exactly for an empty, odd or oversized element or total |
| AhciPrdt.PaddingFits | drivers/drivers/ahci/ahci.c:908-909 | lead, size and trail make exactly count sectors if and only if the sum for the count does not wrap and the difference for the trail does not, or wraps at a multiple of the sector size |
| AhciPrdt.Sector520 | drivers/drivers/ahci/ahci.c:909 | for 520-byte sectors they do not |
| AhciPrdt.CountInRange | drivers/drivers/ahci/ahci.c:564 | the sector count asserted by ata_transfer is in range |
| AhciPrdt.TableCovers | drivers/drivers/ahci/ahci.c:883-949 | the table is leading padding, exactly the first size bytes of the vector in order, trailing padding; its sizes add up; it has at most two entries more than the vector |
| AhciPrdt.MapData | drivers/drivers/ahci/ahci.c:911-939 | the loop fills in the mapped buffers, or fails exactly when one it needs is unmapped or odd |
| AhciPrdt.SetupMeaning | drivers/drivers/ahci/ahci.c:883-949 | a table is refused exactly for a padding buffer that is needed and missing, or a buffer that holds one of the first size bytes and is unmapped or at an odd address |
| AhciPrdt.AlignedIff | drivers/drivers/ahci/ahci.c:1003-1013 | with an even sector size and padding buffer, every entry of the table has an even address and size if and only if the number of bytes to transfer is even |
| AhciPrdt.LimitedEvenIff | drivers/drivers/ahci/ahci.c:977-988 | which the even sizes of the vector do not guarantee: it is if and only if the request was not cut at the end of the partition, or that is an even number of bytes away |
| AhciPrdt.OddCut | drivers/drivers/ahci/ahci.c:1003-1004 | a request for which it is not |
| AhciPrdt.SetupPrdt | drivers/drivers/ahci/ahci.c:883-949 | the array holds the specified table; the overflow assertions hold |
| AhciPrdt.ShrunkSum | drivers/drivers/ahci/ahci.c:1027-1033 | the vector shrinks by exactly the bytes transferred |
| AhciPrdt.ShrunkFrontFirst | drivers/drivers/ahci/ahci.c:1027-1033 | front first: nothing behind a non-empty element changes, and only sizes do |
| AhciPrdt.LimitSize | drivers/drivers/ahci/ahci.c:977-988 | the request is cut to the largest transfer and to the end of the partition, and to nothing less |
| AhciPrdt.CheckTransfer | drivers/drivers/ahci/ahci.c:965-1010 | the refusals before any address is looked up: EINVAL exactly for a bad vector, EIO exactly for an odd lead, or a write that is not of whole sectors; and the count |
| AhciPrdt.PortTransfer | drivers/drivers/ahci/ahci.c:954-1036 | result code, table and count as specified; the sizes in the table make exactly count sectors if and only if the arithmetic does not wrap, or wraps at a multiple of the sector size; the vector shrinks on success only |
| Philosophers.StepFork | asn3/dine.c:127-214 | every instruction keeps: the value of a fork plus its holders is one |
| Philosophers.StepUpdate | asn3/dine.c:237-265 | every instruction keeps: the update lock is free or held by exactly one |
| Philosophers.StepPrint | asn3/dine.c:267-281 | every instruction keeps: the print lock is free or held by one who also holds the update lock |
| Philosophers.StepKeeps | asn3/dine.c:144-212 | every instruction of any of n philosophers keeps all of this and the count of meals |
| Philosophers.NeighboursExclude | asn3/dine.c:148-211 | neighbours never eat together |
| Philosophers.UpdaterSteps | asn3/dine.c:237-281 | whoever holds the update lock can go on |
| Philosophers.SecondForkSteps | asn3/dine.c:148-194 | if somebody is stuck between its two forks, somebody can step: the asymmetric order at work |
| Philosophers.DeadlockFree | asn3/dine.c:127-214 | for every n of at least two, odd or even, somebody can step as long as somebody is not done, in every state with the invariant |
| Philosophers.StepWorks | asn3/dine.c:144 | every instruction takes one off the work left |
| Philosophers.RunsEnd | asn3/dine.c:144-212 | every run is finite; one that cannot be continued has n * cycles * 38 steps, everybody has eaten cycles times, all semaphores are 1 |
| Philosophers.DeadlockIff | asn3/dine.c:135-137 | a deadlock is reachable if and only if there is one philosopher |
| Philosophers.Hall.constructor | asn3/dine.c:61-75 | the semaphores and threads as main sets them up |
| Philosophers.Hall.Execute | asn3/dine.c:144-211 | executing one instruction in place computes the specified step |
| Scatter.ClipBytes | drivers/drivers/at_wini/at_wini.c:1524-1526 | clipping a list names exactly its first n bytes, in order |
| WiniDma.CountRoundTrip | drivers/drivers/at_wini/at_wini.c:1567 | the 16-bit count, zero meaning 64K, is read back exactly for sizes from 1 to 64K |
| WiniDma.RoomFits | drivers/drivers/at_wini/at_wini.c:1550-1552 | the cut at the boundary is taken exactly when the buffer crosses it, and leaves a piece that does not |
| WiniDma.CutAllKeeps | drivers/drivers/at_wini/at_wini.c:1516-1581 | cutting keeps the bytes and their order; every piece lies within one 64K segment, and is even if the buffers are |
| WiniDma.CutLength | drivers/drivers/at_wini/at_wini.c:1550-1552 | a buffer takes one entry for each segment it touches |
| WiniDma.TableCovers | drivers/drivers/at_wini/at_wini.c:1566-1587 | a direct table names exactly the first size bytes of the vector, in order, with whole even entries, the last alone marked as end |
| WiniDma.NextEntry | drivers/drivers/at_wini/at_wini.c:1524-1552 | the next entry is the longest allowed one, or the request is refused |
| WiniDma.FillTable | drivers/drivers/at_wini/at_wini.c:1516-1581 | the loop terminates with the complete table or with the outcome the first unusable buffer decides |
| WiniDma.SetupDma | drivers/drivers/at_wini/at_wini.c:1511-1587 | outcome and table as specified |
| InterruptLines.RegisterKeeps | kernel/interrupt.c:31-71 | registering keeps: distinct ids, active ids are registered, unmasked iff there is a hook and no active id; it panics exactly for a 33rd hook; the new hook comes last, with the lowest free id and inactive, and a second registration changes nothing |
| InterruptLines.PutKeepsIff | kernel/interrupt.c:31-71 | over all lines, registering keeps the invariant if and only if the hook is on no other line; else that line is cut behind the hook and shares it |
| InterruptLines.UnregisterKeeps | kernel/interrupt.c:77-108 | removing an id, registered or not, keeps the same, removes no other hook, and makes no other id inactive |
| InterruptLines.HandleKeeps | kernel/interrupt.c:117-160 | after an interrupt exactly the hooks whose handler did not return true are active, and the line is open iff all did |
| InterruptLines.EnableKeeps | kernel/interrupt.c:163-168 | enabling keeps the invariant exactly on a line with a hook; it makes exactly that id inactive, and opens the line exactly if no other is active |
| InterruptLines.DisableKeeps | kernel/interrupt.c:171-178 | disabling keeps it exactly for an id registered on the line, makes exactly that id active, masks the line, and reports whether it was enabled |
| InterruptLines.RunKeeps | kernel/interrupt.c:31-178 | over any sequence of these operations on any number of lines |
| HookLists.PutChains | kernel/interrupt.c:57-61 | clearing the hook's next field and redirecting the last cell of the list shows the list extended, and any other list cut behind the hook |
| HookLists.PutHomedIff | kernel/interrupt.c:57-61 | afterwards every hook on a list is on that of its own line only, exactly when this hook was on no other |
| Interrupts.Controller.constructor | kernel/interrupt.c:22-23 | all lines without hooks and masked, which satisfies the invariant |
| Interrupts.Controller.PutIrqHandler | kernel/interrupt.c:31-71 | the walk through the next fields, the search for an id, the assignments to the hook and to the cell at the end, and the unmasking compute the specified registration or panic, also of a hook on another line; the lists stay apart exactly when it is on none |
| Interrupts.Controller.RmIrqHandler | kernel/interrupt.c:77-108 | computes the specified removal, by the line and id stored in the hook, or panics |
| Interrupts.Controller.Unlink | kernel/interrupt.c:86-97 | the pointer-to-pointer loop takes out every hook with the id, and clears its active bit |
| Interrupts.Controller.IrqHandle | kernel/interrupt.c:117-160 | computes the specified handling |
| Interrupts.Controller.EnableIrq | kernel/interrupt.c:163-168 | computes the specified enabling, also of a hook that is not registered |
| Interrupts.Controller.DisableIrq | kernel/interrupt.c:171-178 | computes the specified disabling, also of a hook that is not registered |

## Left out

Preconditions that stand for what the callers guarantee, and claims that are weaker than one might expect:

- ProcTable.Kernel.SchedProc: excludes the priority NR_SCHED_QUEUES, with which the code writes past its queue arrays; ReadyQueues.SchedProcKeeps covers it on values.
- KernelRuns.StepKeeps: a run ends where the out-of-quantum message would be refused, since the code panics there (KernelRuns.NoTimeRefusedIff says when); a self-receive (KernelRuns.AcyclicUnlessSelfReceive) and the priority NR_SCHED_QUEUES (ReadyQueues.SchedProcKeeps) are excluded.
- ProcessExit.ClearEndpointEffect: exit is not a step of the runs, because the queue invariant does not survive it; slot reuse and endpoint generations are not modelled.
- Heap.Allocator.Malloc: excludes sizes whose rounding is 2^63 or more, for which HeapSpec.ServedIff and the lemmas after it say what fails; one refusal of `sbrk` stands for all causes, and `sbrk(0)` never fails; nothing but the allocator moves the break.
- Heap.Allocator.Calloc: excludes products in the same range.
- Heap.Allocator.Realloc: excludes the same sizes and the last 15, for which malloc returns a block smaller than what is copied into it; and the backward-growing branch, which neither marks its block nor moves the data.
- AhciRuns.AssertionsHold: that no transfer comes for a closed port is left to libdriver, which is not part of the repository.
- AhciPrdt.SetupPrdt: does not model that trailing padding is used even when no padding buffer was allocated (no leading padding), nor where padding data lands.
- WiniDma.SetupDma: physical memory ends below 4G, so that no address sum wraps.
- Interrupts.Controller.EnableIrq: the line stored in the hook must exist, since the code does not test it; Interrupts.Controller.DisableIrq likewise.
- Interrupts.Controller.RmIrqHandler: requires lists that are apart; InterruptLines.PutKeepsIff says when registering keeps them so. Interrupts.Controller.IrqHandle and Interrupts.Controller.PutIrqHandler likewise.
- Debug.RunqueuesOk: a tail pointer outside the process table, which the code would follow, is excluded.

Not modelled:

- Asynchronous sends, IPC status registers, tracing, signals, VM suspension, FPU and register contexts, and the flags' meaning outside scheduling and message passing.
- RTS_SETFLAGS, which nothing uses and whose order conflicts with the assertion in `dequeue`.
- Privilege structures shared by user processes: a notification bit is the sender's slot number.
- The code EDEADSRCDST that `clear_ipc_refs` stores for those it unblocks: return registers are not in the table.
- The caller-supplied group-size printing of `deadlock`, and the copying of message and payload contents other than as values.
- The process table is an array of records and the links are arrays beside it, not fields inside it.
- Interrupt hooks are numbered, and their `next`, `irq` and `id` fields are arrays; a hook's handler and processor-side acknowledgement are not modelled. Bit masks there are sets of bit numbers.
- `memset` and `memcpy` of payloads, `errno`, and debug output of the allocator.
- AHCI register contents beyond what a handler reads, the Started column of its state table, FIS and packet contents, write-cache flags, partition parsing, several ports sharing one interrupt, and driver shutdown.
- The bounce-buffer table, port I/O, polling and retries of `at_wini.c`.
- What the philosophers display, the failure of a semaphore call, and sleeping.
- `kernel_copy/` (a duplicate), `asn2`, `asn4`, `asn5`, `Lab1`, the secrets and network drivers, acpi and amddev: they would add input and output plumbing or easy members.
