# Verified model of the D7 operating system

A Dafny 4.11 model of the parts of this Rust operating system whose correctness spans several
functions, with proofs. `dafny verify dfyconfig.toml` checks the whole project.

## What is modelled

* **Scheduler and IPC.** The scheduler queues (`Queues`, `LiveQueues`), wait conditions (`Waits`),
  topics and the subscription list (`Topics`, `Subscriptions`), and the pub/sub manager with
  mailboxes, pipes, reliable deliveries and verdicts (`EventQueues`, `Mail`, `LiveMail`) form one
  machine (`Kernel`, `LiveKernel`). Each system call, repeated system call, timer tick, interrupt
  and crash is one atomic step. The invariant of that machine is in `KernelInvariant` and is carried
  over every run in `KernelSafety`; what it means for a user is stated in `KernelTheorems`,
  `DeliveryRuns`, `OrderRuns`, `PipeRuns` and `WaitRuns`. What each single step shows from outside, for every
  call and for every switch, is tabulated in `CallResults` and `ScheduleResults`. `Witnesses` holds runs that show where a promise ends.
* **Page tables and process memory** (`PageTables`, `ProcessMemory`): the P4/P3/P2 tree inside one
  2 MiB area refines a plain map from pages to frames; allocating and freeing ranges conserves frames.
* **Disk cursor and cache** (`Disks`): unaligned reads and writes over a write-through sector cache.
* **Virtual address allocator** (`VirtualAllocator`): first fit over a free list.
* **Arguments of a new process** (`Arguments`): from the caller of exec to the child's iterator.
* **Network** (`Checksums`, `Packets`, `Names`): internet checksum, IPv4/TCP/UDP packets, DNS names.
* **Service manager** (`Services`, `ServiceRuns`): dependency-ordered start and parked waiters.

## How it is modelled

State that the source updates in place is a class (`SchedulerQueues`, `SubscriptionList`, `Manager`,
`Scheduler`, `PageMap`, `Memory`, `DiskCursor`, ...) whose methods are proved against functions or
relations on values; the properties are proved about those.

* A panic, failed assertion, `unwrap` or `expect` of the source is either proved impossible, or is a
  `None`, `Failed`, `Panicked` or `false` result, or is the precondition named `...Safe`. A kernel step
  that would panic has no successor, and `KernelTheorems.PanicsIffImpolite` says exactly when a call does.
* Iteration over hash sets and maps happens in any order: `Woken` and `EventsFired` are relations.
* A text in a call has one char per byte. `Fault` is a call that points to memory the process does not have.
  `Broken` is a call that panics outside scheduler and manager, before or after they work on it: an address
  outside both canonical halves; an argument block of `exec` that is too short or holds a long string; an empty
  buffer at an aligned address, whose empty virtual allocation cannot be given back
  (`VirtualAllocator.EmptyAllocation`); a long text to print; a DMA region of no bytes; a handler that is not
  written. The buffer of a receive is told by the messages whose serialised form fits into it.
* Time, random choices of the LRU cache, the physical allocator and what a kernel service answers are
  parameters or arbitrary choices. Event ids, acknowledgement ids and wait ids are unbounded counters.
* One condition on callers is part of the machine: a process acknowledges only what has left its
  mailbox, as the client library does (libs/libd7/src/ipc/subscription.rs:140-177);
  `KernelTheorems.AcknowledgeKeepsIff` shows that this is exactly what keeps the books.
* Only the running process is ended, as in the source; `KernelTheorems.TerminatePlacementIff` shows what
  ending a waiting one would do.

## Where the code and its documentation differ

The model follows the code.

* The pipe flag (libs/d7abi/src/ipc/mod.rs:22) contains the prefix bit, so a pipe subscription is a prefix
  subscription, although its comment speaks of an exact one.
* `PageMap::translate` (src/memory/paging/mapper.rs:126) gives the start of the frame, without the offset
  of the address inside its page.
* `DiskCursor::read` (modules/daemon_fatfs/src/cursor.rs:58) is right only within one sector:
  `Disks.ReadRightIff`.
* `DiskCursor::write` reads the sector its end lies in even when the end is exact, so it fails at the very
  end of the disk: `Disks.DiskCursor.Write` and `Disks.LastSectorRefused`.
* The size check in `create_process` (src/multitasking/process.rs:409) counts slots as bytes:
  `Arguments.FrameTooLow` and `Arguments.Stack.Populate`.
* `map_to` does not check the number of tables: `PageTables.FitsIffInside` and `PageTables.SpreadPages`.
* An empty virtual allocation cannot be given back at once, and later it breaks the free list:
  `VirtualAllocator.EmptyAllocation`, `VirtualAllocator.EmptyFreedLater`.
* Giving back a virtual region between two free blocks joins it to the lower one only, so free space falls
  apart: `VirtualAllocator.SeparateIff`, `VirtualAllocator.Fragments`.
* `sched_sleep_ns` is documented up to 584 years (libs/libd7/src/syscall.rs:106); the kernel asserts less than
  one (src/smp/sleep.rs:28-31), which is one of the conditions of `KernelTheorems.PanicsIffImpolite`.
* `exec` with arguments that do not fit the stack panics: `Witnesses.LaunchPanicsIff`.
* `ipc_subscribe`, `ipc_publish`, `ipc_deliver` and `ipc_deliver_reply` assert that texts are shorter than
  10000 bytes (src/syscall/mod.rs:92) instead of refusing them: `KernelTheorems.LongTopicPanics`.
* A delivery that was received but never acknowledged is not released when its receiver ends:
  `DeliveryRuns.OnlyAcknowledged`, `Delivery.EndDecidesIff` and `Witnesses.LeftBlocked`.
* `read_name` does not end on a name that jumps back into itself: `Names.CircularName`.

## Model

| member | source | states |
|---|---|---|
| `KernelTheorems.PlacementTheorem` | src/multitasking/scheduler.rs:103-238 | in every state of every run a live process occurs exactly once among running, ready queue and live waits, and nothing else occurs there; so both lookups in switching succeed |
| `KernelTheorems.NoLostWakeup` | src/ipc/mod.rs:410-441 | in every state of every run, a mailbox a process is blocked on (receive or select) and that is still subscribed is empty and armed with an event that leads to the live wait of that process |
| `WaitRuns.WaitsInRun` | src/multitasking/queues.rs:72-177 | in every run of the kernel a live wait goes on until the first step that meets its condition by the clock, the end of a process or a triggered event; after that step its process is ready or runs, and the wait never comes back |
| `WaitRuns.SleepsUntil` | src/syscall/mod.rs:209-225 | in every run a process that goes to sleep is blocked until the first tick at or after its time, and then ready or running |
| `WaitRuns.StepRun` | src/multitasking/scheduler.rs:103-247 | every step of the kernel changes the queues by a fixed list of queue operations followed by taking at most one process |
| `WaitRuns.StepOpsMeet` | src/multitasking/queues.rs:107-177 | these operations meet a condition exactly when the step does |
| `DeliveryRuns.ArrivalWakes` | src/ipc/event_queue.rs:29-61 | a step after which that mailbox holds a message leaves the process unblocked, with its call still to be repeated |
| `DeliveryRuns.DeliveryFate` | src/ipc/mod.rs:259-316 | at every later point of every run a delivery is what the tracked fate says: in exactly one place of one mailbox until it is received or that mailbox goes away, and in none ever after; outstanding with its sender blocked until it is decided, then with exactly that verdict waiting for its sender |
| `DeliveryRuns.ReceivedOnce` | src/ipc/mod.rs:425-441 | over every run no delivery is received twice |
| `DeliveryRuns.OnlyAcknowledged` | src/ipc/mod.rs:445-461 | once received, a delivery is decided by its acknowledgement and by nothing else: until then its sender stays blocked, whoever unsubscribes or ends |
| `Witnesses.LeftBlocked` | src/ipc/mod.rs:465-491 | a run in which the receiver takes a delivery and exits: its sender is left blocked and the delivery outstanding |
| `OrderRuns.FirstInFirstOut` | src/ipc/event_queue.rs:29-45 | over every run, for every mailbox: what was in it followed by all that arrived is what was received from it followed by what is left, with published interrupts and deaths included |
| `OrderRuns.StepOrder` | src/ipc/event_queue.rs:29-45 | every step leaves a mailbox alone, appends one message that this step sends, or hands its first message to the owner that receives |
| `PipeRuns.PipeForLife` | src/ipc/mod.rs:276-289 | in every run a pipe connected to a process stays so, with nothing in it but outstanding deliveries of that process, until that process ends; then it is disconnected and empty for good |
| `PipeRuns.PipeRefuses` | src/ipc/mod.rs:276-289 | from then on whoever else delivers to its topic is refused as reserved, goes on running, and puts nothing into any mailbox |
| `PipeRuns.PipeStep` | src/ipc/mod.rs:465-491 | one step leaves a pipe as it is, connects it to the process that delivers, or disconnects it from the process that ends |
| `DeliveryRuns.VerdictReachesSender` | src/syscall/mod.rs:311-326 | the step in which the sender collects hands it the verdict that was decided for its own acknowledgement id, and leaves no verdict and nothing outstanding behind |
| `DeliveryRuns.OnlySentArePending` | src/syscall/mod.rs:346-360 | a delivery comes into being only by a fresh deliver call that gets the next acknowledgement id; a repeated call never enqueues again |
| `DeliveryRuns.SentFacts` | src/ipc/mod.rs:270-303 | the new delivery belongs to its sender, whose saved call is the deliver call, and its message, with the topic and data given, lies in some mailbox and in no other form anywhere |
| `DeliveryRuns.Collects` | src/ipc/mod.rs:394-408 | a repeated deliver with a verdict returns it to the process that keeps running, forgets it, and sends nothing |
| `DeliveryRuns.StepJudges` | src/ipc/mod.rs:201-220 | every step decides exactly the deliveries that are acknowledged or whose mailbox goes away, with the verdict of that reason, and touches no verdict, record or subscription of another process |
| `DeliveryRuns.NoRepeatPanics` | src/syscall/mod.rs:475-512 | if processes select only on their own subscriptions, no repeated call panics in any run, except a receive whose message does not fit its buffer |
| `KernelTheorems.PanicsIffImpolite` | src/ipc/mod.rs:259-391 | in every reachable state a call runs into an assertion, unwrap or panic of scheduler or manager, or is broken outside of them, if and only if: it is the call Broken; it names a filter or topic of 10000 bytes or more; it sleeps for a year or longer; it launches a malformed image, or arguments that do not fit the stack; it selects on a subscription without a process mailbox before it finds a message; it receives a message larger than its buffer; it replies to a pipe or kernel mailbox; it acknowledges an unknown id; or it delivers to a kernel service a message that cannot be decoded or whose answer meets such a target or an armed mailbox. All other assertions of the manager are dead code |
| `KernelTheorems.LongTopicPanics` | src/syscall/mod.rs:89-100 | a valid topic of 10000 letters panics publish, reply and subscribe always, and deliver exactly when there is no verdict to collect |
| `Witnesses.LaunchPanicsIff` | src/multitasking/process.rs:409-412 | once there is a stack, a launch panics exactly when its arguments would not get through to the child |
| `Witnesses.TooManyArguments` | src/multitasking/process.rs:409-412 | 524283 empty arguments are such a launch |
| `KernelTheorems.SelectSafeIff` | src/ipc/mod.rs:412-421 | a select panics if and only if it reaches a subscription without a process mailbox before it finds a message |
| `KernelTheorems.RepeatNeverPanics` | src/syscall/mod.rs:706-773 | a woken call repeats without panicking, provided a select looks only at own subscriptions and a received message fits its buffer |
| `KernelTheorems.TerminateNeverPanics` | src/ipc/mod.rs:465-491 | tearing down a process never fails an unwrap |
| `KernelTheorems.RepeatNeverLoops` | src/interrupt/handler.rs:499-523 | working off repeated calls never comes straight back to the process just put to sleep, so the loop assertion never fails |
| `KernelTheorems.TerminatePlacementIff` | src/multitasking/scheduler.rs:115-151 | ending a process keeps every process in one place if and only if the process is not waiting |
| `Witnesses.EndingASleeper` | src/multitasking/queues.rs:153-167 | from every initial state a run that boots a process and puts it to sleep; ending it then leaves it behind its wait id without an entry in the process table |
| `KernelTheorems.DoneIsGone` | src/multitasking/waitfor.rs:27-48 | for the running process the test for a finished process is exact: it holds just for ids not in the process table |
| `KernelTheorems.DeadlineIsEarly` | src/multitasking/scheduler.rs:250-258 | the next timer deadline is the earliest of all sleepers, the end of the time slice and 10 ms from now, and is missing exactly when there is neither sleeper nor slice |
| `KernelTheorems.SleepersFifo` | src/multitasking/queues.rs:241-251 | a new sleeper stands behind those with its time and before the later ones; the others keep their order |
| `KernelTheorems.Bookkeeping` | src/ipc/mod.rs:112-198 | in every reachable state the list is sorted, mailbox keys are the listed ids, a topic has at most one reliable subscriber and then no other, and process mailboxes have exactly one owner |
| `KernelTheorems.QueuesHold` | src/ipc/mod.rs:276-305 | in every reachable state a queued delivery is pending and queued in one place only, and a pipe holds deliveries of one process only |
| `KernelTheorems.AcknowledgeKeepsIff` | src/ipc/mod.rs:445-461 | an acknowledgement keeps the books if and only if the acknowledged message is not queued any more |
| `KernelTheorems.UnsubscribeFreesQueued` | src/ipc/mod.rs:201-230 | unsubscribing gives a verdict to exactly the senders whose deliveries were queued there, and triggers exactly their events |
| `KernelTheorems.WaitersMail` | src/ipc/mod.rs:425-441 | the state form of the wake-up guarantee, for any state that satisfies the kernel invariant |
| `CallResults.Receives` | src/syscall/mod.rs:409-452 | over every kernel step of a receive, fresh or repeated: it is refused exactly when the subscription is not the caller's own, gets the oldest message exactly when there is one, and waits for mail exactly when there is none; it is never told that it is unsubscribed |
| `CallResults.ReceiveRefusals` | src/ipc/mod.rs:425-441 | for every state of the manager: not the owner exactly when not owned, unsubscribed exactly when owned without a mailbox, an event to wait for exactly on an own empty mailbox |
| `CallResults.Selects` | src/syscall/mod.rs:475-518 | over every kernel step of a select: an index is returned exactly when that is the first mailbox with a message; without one the process waits for all of them exactly when it may block |
| `CallResults.Delivers` | src/ipc/mod.rs:259-305 | over every step of a fresh deliver to a process mailbox: it is sent exactly when fewer than 100 messages are queued and the mailbox is no pipe of somebody else's and not disconnected; then the message is last, the sender is blocked and a fresh pipe is its own; otherwise it is told about the pipe, or else the full queue, and nothing is put anywhere |
| `CallResults.DeliversNowhere` | src/syscall/mod.rs:340-366 | an invalid topic is refused as such and only that; a topic nobody listens to reliably has no subscriber; nothing changes |
| `CallResults.DeliversToKernel` | src/ipc/mod.rs:305-316 | a kernel service refuses, or its reply is appended for whoever listens and has room, and the sender is told exactly how that went |
| `CallResults.Replies` | src/syscall/mod.rs:367-408 | a reply is appended without an acknowledgement exactly when somebody listens and has room; otherwise the sender is told which of the two is missing |
| `CallResults.Publishes` | src/syscall/mod.rs:273-310 | publishing succeeds exactly on a valid topic, and appends the message to exactly the mailboxes that listen and hold fewer than 100 |
| `CallResults.IrqSpreads` | src/ipc/mod.rs:499-507 | so does an interrupt, which changes nothing else about processes and mail |
| `CallResults.Subscribes` | src/syscall/mod.rs:226-261 | a subscription is refused for its text, or else exactly when some topic would reach it and another one of which one is reliable; otherwise it is new, listed with its filter, owned by its subscriber, empty, and an unconnected pipe exactly when all three bits are set |
| `CallResults.ServiceSubscribes` | src/ipc/mod.rs:189-198 | a kernel service is refused for the same reason; otherwise it is listed without mailbox and owner |
| `CallResults.Unsubscribes` | src/syscall/mod.rs:262-272 | unsubscribing is refused exactly to others than the owner; it removes just that subscription, and frees exactly the senders whose messages lie there, who are told there is no subscriber |
| `CallResults.Acknowledged` | src/syscall/mod.rs:453-474 | an acknowledgement ends just the delivery it names, gives its sender the positive or negative verdict, and makes it ready |
| `ScheduleResults.Slices` | src/multitasking/scheduler.rs:186-238 | in every step: whoever gets the processor has it for 100 ms from the instant of the switch, nobody gets it only if nobody is ready, and without a switch slice and process go on |
| `ScheduleResults.SliceSince` | src/multitasking/scheduler.rs:241-247 | in every run a slice with an end has had one running process since the switch 100 ms before that end |
| `ScheduleResults.RoundRobin` | src/multitasking/queues.rs:107-133 | in every step those who are ready keep their places in the line; before them come exactly those who were blocked and are not any more, behind them only a new process or the one that gives way |
| `ScheduleResults.Ticks` | src/multitasking/queues.rs:136-145 | a tick wakes exactly those who sleep no longer than now, the latest first, and puts the running process behind everybody |
| `ScheduleResults.Launches` | src/syscall/mod.rs:149-202 | a launch adds a child behind everybody and returns its id, or is refused and uses up an id unless the image did not fit memory |
| `ScheduleResults.Boots` | src/multitasking/scheduler.rs:103-110 | booting adds one new process behind everybody, and nothing else |
| `ScheduleResults.Rests` | src/syscall/mod.rs:208-225 | yielding, sleeping and computing return their own answer and touch no mail |
| `ScheduleResults.Dies` | src/multitasking/scheduler.rs:115-151 | when a process ends, it and exactly its own subscriptions are gone, exactly its pipes are disconnected, and exactly those left who listen and have room are told |
| `ScheduleResults.HangUpWakes` | src/ipc/mod.rs:479-490 | whoever waits on a pipe is woken when its one sender ends |
| `LiveKernel.SwitchTells` | src/multitasking/scheduler.rs:199-214 | the result of a switch: idle exactly when nobody runs, and otherwise whether the call of the running process is to be repeated |
| `KernelSafety.RunKeepsInv` | src/multitasking/scheduler.rs:41-63 | the kernel invariant (placement, mail books, wake-up conditions, sender states) holds in every state of every run |
| `KernelSafety.NextKeepsInv` | src/interrupt/handler.rs:105-240 | every single step (call, repeated call, tick, interrupt, crash, boot) keeps it |
| `KernelSafety.TerminatedKeeps` | src/multitasking/scheduler.rs:115-151 | ending the running process, with all wake-ups and the published death, keeps it |
| `KernelSafety.TickKeeps` | src/multitasking/scheduler.rs:241-247 | a tick with all its wake-ups and the preemption keeps it |
| `KernelSafety.IrqKeeps` | src/ipc/mod.rs:499-507 | a published interrupt, with or without switching, keeps it |
| `KernelSafety.CallStepKeeps` | src/syscall/mod.rs:706-773 | handling a call and doing what its result asks for keeps it |
| `KernelInvariant.WakesKeep` | src/multitasking/queues.rs:72-79 | whoever is woken by a change of the manager, everybody else stays consistent: whoever is still blocked still waits for the right event |
| `KernelCalls.CallKeeps` | src/syscall/mod.rs:262-518 | every call keeps the books of the manager and disturbs a waiter only if it triggers its event |
| `KernelCalls.CallOutcomes` | src/syscall/mod.rs:311-518 | a call that is to be repeated leaves its process with a reason that will wake it: armed mailboxes, or its one outstanding delivery |
| `LiveKernel.Scheduler.constructor` | src/multitasking/scheduler.rs:55-63 | a new scheduler with a new manager is an initial state of the machine |
| `LiveKernel.Scheduler.Spawn` | src/multitasking/scheduler.rs:103-110 | the new state of a spawn, with and without memory; the id is used up either way |
| `LiveKernel.Scheduler.Switch` | src/multitasking/scheduler.rs:186-214 | gives the running process away, takes the next ready one, and reports whether its call is to be repeated; the lookup succeeds |
| `LiveKernel.Scheduler.SwitchCurrent` | src/multitasking/scheduler.rs:220-238 | keeps the running process or takes the next one |
| `LiveKernel.Scheduler.NextTick` | src/multitasking/scheduler.rs:250-258 | computes the deadline of the specification |
| `LiveKernel.Scheduler.Publish` | src/ipc/mod.rs:499-507 | publishes and triggers the resulting events in any order |
| `LiveKernel.Scheduler.End` | src/multitasking/scheduler.rs:115-151 | ends a live process as specified; otherwise only clears the running slot |
| `LiveKernel.Scheduler.Select` | src/syscall/mod.rs:493-512 | the select loop equals its recursive specification |
| `LiveKernel.Scheduler.Answer` | src/syscall/mod.rs:124-518 | each modelled call does to the manager what its specification says |
| `LiveKernel.Scheduler.Handle` | src/syscall/mod.rs:119-124 | and then triggers the events |
| `LiveKernel.Scheduler.HandleSyscall` | src/syscall/mod.rs:706-773 | records the result or the call to repeat, then continues, switches or ends the process; all lookups succeed |
| `LiveKernel.Scheduler.Syscall` | src/syscall/mod.rs:706-773 | a call within the conditions of PanicsIffImpolite makes one step of the machine and keeps the invariant, meeting no assertion of scheduler or manager on the way |
| `LiveKernel.Scheduler.Repeat` | src/interrupt/handler.rs:499-523 | so does a repeated call, if a select looks at own subscriptions only and a received message fits |
| `LiveKernel.Scheduler.Tick` | src/multitasking/scheduler.rs:241-247 | so does a timer tick, with no conditions |
| `LiveKernel.Scheduler.Irq` | src/interrupt/handler.rs:210-235 | so does an interrupt, with no conditions |
| `LiveKernel.Scheduler.Crash` | src/interrupt/handler.rs:428-459 | so does a crash of the running process |
| `LiveKernel.ResultFlat` | src/multitasking/waitfor.rs:78-121 | every wait condition a system call creates is flat, so the panics on nested and missing conditions cannot be reached |
| `Waits.ReduceMeaning` | src/multitasking/waitfor.rs:78-121 | reducing any wait condition but the empty list keeps its meaning: it is met by exactly the occurrences that meet the original one, and so are its parts registered one by one |
| `Waits.ReducedAtoms` | src/multitasking/waitfor.rs:81-117 | the reduced condition consists of the other conditions in order and the earliest of the times |
| `Waits.ReduceInPlace` | src/multitasking/waitfor.rs:78-121 | the loop over the options computes the reduction |
| `Waits.EmptyListRunsNow` | src/multitasking/waitfor.rs:111-113 | the empty list is the exception: nothing meets it, yet it reduces to running at once |
| `QueueRuns.WaitsUntilMet` | src/multitasking/queues.rs:107-177 | over every run of queue operations a parked process stays parked until the first occurrence that meets its condition, becomes ready then, and its wait id never comes back |
| `QueueRuns.ArmedUntilMet` | src/multitasking/queues.rs:72-177 | the same for any wait that is live, from any state of the queues |
| `QueueRuns.GivenReadyAtOnce` | src/multitasking/waitfor.rs:53-74 | a condition on a process already gone makes the process ready at once |
| `QueueRuns.StepMeans` | src/multitasking/queues.rs:72-79 | one queue operation wakes a wait if and only if it meets its condition; otherwise all its triggers survive |
| `QueueRuns.Forgotten` | src/multitasking/queues.rs:136-177 | after a tick, the end of a process or an event nothing is left registered for it |
| `QueueRuns.GivenIsArmed` | src/multitasking/queues.rs:107-125 | a parked process is registered for exactly the parts of its reduced condition under a fresh id |
| `Queues.GiveKeepsInv` | src/multitasking/queues.rs:107-125 | giving a process keeps the queue invariant: ids unique, sleepers sorted, every live wait registered somewhere |
| `Queues.OverKeepsInv` | src/multitasking/queues.rs:153-167 | so does the end of a process that is not waiting, and exactly that process leaves the queues |
| `Queues.FiredKeepsInv` | src/multitasking/queues.rs:170-177 | so do triggered events |
| `Queues.TickKeepsInv` | src/multitasking/queues.rs:136-145 | so does a tick |
| `Queues.TickWakes` | src/multitasking/queues.rs:136-145 | a tick wakes exactly the live waits whose time has come |
| `Queues.WokenPlaces` | src/multitasking/queues.rs:72-79 | waking moves processes from waiting to ready: none is lost, none is doubled |
| `Queues.WokenCompose` | src/multitasking/queues.rs:162-166 | waking sets of waits one after the other is waking their union, in some order |
| `Queues.FiredCompose` | src/ipc/result.rs:53-58 | triggering sets of events one after the other is triggering their union |
| `LiveQueues.SchedulerQueues.Exists` | src/multitasking/queues.rs:59-61 | finds a process in the ready queue or behind a live wait |
| `LiveQueues.SchedulerQueues.ReduceFor` | src/multitasking/waitfor.rs:53-74 | computes the reduction against the queues |
| `LiveQueues.SchedulerQueues.TryResolve` | src/multitasking/waitfor.rs:27-48 | finds a waited-for process that is gone if and only if there is one |
| `LiveQueues.SchedulerQueues.PriorityIndex` | src/multitasking/queues.rs:241-251 | the scan finds the insertion place |
| `LiveQueues.SchedulerQueues.GiveInner` | src/multitasking/queues.rs:81-105 | registers one condition in its table |
| `LiveQueues.SchedulerQueues.Accept` | src/multitasking/queues.rs:107-125 | parks or readies a process as specified |
| `LiveQueues.SchedulerQueues.Take` | src/multitasking/queues.rs:131-133 | takes the first ready process and nothing else |
| `LiveQueues.SchedulerQueues.TriggerWait` | src/multitasking/queues.rs:72-79 | consumes a live wait once; a spent one changes nothing |
| `LiveQueues.SchedulerQueues.TriggerSet` | src/multitasking/queues.rs:163-165 | triggers a set of waits in any order |
| `LiveQueues.SchedulerQueues.OnTick` | src/multitasking/queues.rs:136-145 | the loop over due sleepers equals its specification |
| `LiveQueues.SchedulerQueues.OnProcessOver` | src/multitasking/queues.rs:153-167 | removes the process and wakes those waiting for it |
| `LiveQueues.SchedulerQueues.OnExplicitEvent` | src/multitasking/queues.rs:170-177 | wakes those waiting for the event |
| `LiveQueues.SchedulerQueues.ConsumeEvents` | src/ipc/result.rs:53-58 | triggers all events of a result in any order |
| `Topics.ContainsFilterIsOverlap` | src/ipc/topic.rs:94-113 | one filter contains the other if and only if some valid topic matches both; so the relation is symmetric |
| `Subscriptions.InsertMembers` | src/ipc/list.rs:23-37 | an insertion adds exactly the new target and keeps the list sorted |
| `Subscriptions.InsertExclusive` | src/ipc/list.rs:41-49 | an insertion without conflict keeps reliable subscriptions exclusive |
| `Subscriptions.InsertKeepsInv` | src/ipc/list.rs:23-37 | a refused insertion changes nothing; an accepted one adds one new id |
| `Subscriptions.RemoveKeepsInv` | src/ipc/list.rs:51-53 | removing takes away exactly one id and keeps order and exclusion |
| `Subscriptions.ExclusiveTopics` | src/ipc/list.rs:55-68 | a topic has at most one reliable subscriber, and then no unreliable one |
| `Subscriptions.SubscriptionList.Add` | src/ipc/list.rs:23-37 | inserts by binary search what the specification inserts |
| `Subscriptions.SubscriptionList.HasConflict` | src/ipc/list.rs:41-49 | finds a conflict if and only if there is one |
| `Subscriptions.SubscriptionList.BinarySearch` | src/ipc/list.rs:30-33 | finds the place that splits the list around the value |
| `Subscriptions.SubscriptionList.Remove` | src/ipc/list.rs:51-53 | keeps all other targets in order |
| `Subscriptions.SubscriptionList.Find` | src/ipc/list.rs:55-68 | finds exactly the matching subscriptions |
| `MailOrder.CallInOrder` | src/ipc/event_queue.rs:29-45 | the part of one call in the order of a mailbox: it leaves it alone, appends a message sent to it while there is room, or takes its first message for the receiver who gets it |
| `MailOrder.PublishReaches` | src/ipc/mod.rs:233-253 | a published message is appended if and only if the mailbox has room and is an unreliable subscriber of the topic |
| `MailOrder.CallPipes` | src/ipc/mod.rs:276-289 | a pipe changes its mode in a call only by being connected to the delivering process |
| `MailOps.SubscribeKeeps` | src/ipc/mod.rs:165-185 | subscribing keeps the books and disturbs nobody |
| `MailOps.KernelSubscribeKeeps` | src/ipc/mod.rs:189-198 | so does subscribing a kernel service |
| `MailOps.DeliverKeeps` | src/ipc/mod.rs:259-316 | delivering keeps the books; whoever is armed on the target is triggered |
| `MailOps.DeliverReplyKeeps` | src/ipc/mod.rs:320-351 | so does replying |
| `MailOps.KernelReplyKeeps` | src/ipc/mod.rs:356-391 | so does a reply of a kernel service |
| `MailBoxes.PublishKeeps` | src/ipc/mod.rs:233-253 | publishing keeps the books; exactly the armed events of mailboxes that took the message are triggered |
| `MailBoxes.PopKeeps` | src/ipc/mod.rs:425-441 | taking a message keeps the books |
| `MailBoxes.ArmKeeps` | src/ipc/event_queue.rs:51-61 | arming an empty mailbox with an unused event keeps the books |
| `MailBoxes.HangUpKeeps` | src/ipc/mod.rs:479-490 | hanging up the pipes of a process that is over keeps the books and triggers the armed ones |
| `MailEnds.AcknowledgeKeeps` | src/ipc/mod.rs:445-461 | acknowledging a received message keeps the books and triggers just its sender |
| `MailEnds.AfterDeliveryKeeps` | src/ipc/mod.rs:399-408 | collecting a verdict keeps the books |
| `MailEnds.UnsubscribeKeeps` | src/ipc/mod.rs:223-230 | unsubscribing keeps the books; released senders are triggered |
| `MailEnds.EndProcessKeeps` | src/ipc/mod.rs:465-491 | tearing down a process keeps the books; released senders and hung-up receivers are triggered |
| `MailEnds.TearDownSafe` | src/ipc/mod.rs:201-220 | under the books the unwraps of forced unsubscription, process end and receive cannot fail |
| `MailEnds.PublishIsSafe` | src/ipc/mod.rs:236-241 | under the books publishing never meets a kernel mailbox or a pipe |
| `MailEnds.SoleTarget` | src/ipc/mod.rs:260-272 | under the books a topic with a reliable subscriber has exactly one target, which has a mailbox entry |
| `MailEnds.DeliverSafeIff` | src/ipc/mod.rs:259-351 | under the books deliver and its reply panic exactly for the stated bad targets |
| `MailEnds.KernelReplySafeIff` | src/ipc/mod.rs:356-391 | a kernel service reply panics unless its target is a plain process mailbox that is not armed |
| `LiveMail.Manager.constructor` | src/ipc/mod.rs:131-140 | starts empty |
| `LiveMail.Manager.Subscribe` | src/ipc/mod.rs:165-185 | new state and answer as specified |
| `LiveMail.Manager.KernelSubscribe` | src/ipc/mod.rs:189-198 | new state and answer as specified |
| `LiveMail.Manager.ForceUnsubscribe` | src/ipc/mod.rs:201-220 | the loop over queued messages releases exactly their senders |
| `LiveMail.Manager.Unsubscribe` | src/ipc/mod.rs:223-230 | only the owner may unsubscribe |
| `LiveMail.Manager.Publish` | src/ipc/mod.rs:233-253 | the loop over matching mailboxes, in any order, equals publishing to all at once |
| `LiveMail.Manager.Deliver` | src/ipc/mod.rs:259-316 | new state, answer and events as specified, including pipes and kernel services |
| `LiveMail.Manager.DeliverReply` | src/ipc/mod.rs:320-351 | new state, answer and events as specified |
| `LiveMail.Manager.KernelReply` | src/ipc/mod.rs:356-391 | new state and answer as specified |
| `LiveMail.Manager.AfterDelivery` | src/ipc/mod.rs:399-408 | hands out the verdict and forgets it |
| `LiveMail.Manager.WaitingFor` | src/ipc/mod.rs:412-421 | nothing to wait for if there is a message, otherwise the armed event |
| `LiveMail.Manager.Receive` | src/ipc/mod.rs:425-441 | first message, or the event to wait for, or the error |
| `LiveMail.Manager.Acknowledge` | src/ipc/mod.rs:445-461 | records the verdict for the sender and gives its event |
| `LiveMail.Manager.OnProcessOver` | src/ipc/mod.rs:465-491 | dropping the mailboxes one by one, waking as it goes, equals dropping them at once; then all its pipes are hung up |
| `LiveMail.Manager.GetEvent` | src/ipc/event_queue.rs:51-53 | keeps an armed event, or arms the mailbox with the next unused one |
| `Delivery.CallJudges` | src/ipc/mod.rs:201-230 | what one call decides, with which verdict, and what it leaves alone |
| `Delivery.EndJudges` | src/ipc/mod.rs:465-491 | the same for the end of a process |
| `Delivery.EndDecidesIff` | src/ipc/mod.rs:465-491 | the end of a process decides a delivery if and only if it still lies in a mailbox of that process |
| `PageTables.PageMap.constructor` | src/memory/paging/mapper.rs:92-116 | a fresh page map maps just the table area, with three tables, one per level |
| `PageTables.PageMap.Translate` | src/memory/paging/mapper.rs:126-141 | gives the frame of the plain page map for every page; the huge-page assertion never fails |
| `PageTables.PageMap.MapTo` | src/memory/paging/mapper.rs:185-237 | succeeds if and only if the tables needed fit the area, where the original writes behind it otherwise; then it changes the plain page map at one page only, and the table counter stays the number of tables the pages ever mapped need |
| `PageTables.PageMap.Unmap` | src/memory/paging/mapper.rs:155-180 | removes one page from the plain page map and changes no table count; it needs a page of the same P2 table to have been mapped once |
| `PageTables.PageMap.GetP3` | src/memory/paging/mapper.rs:200-211 | finds or makes the P3 table; no page changes its meaning |
| `PageTables.PageMap.GetP2` | src/memory/paging/mapper.rs:213-224 | finds or makes the P2 table; no page changes its meaning |
| `PageTables.PageMap.Walk` | src/memory/paging/mapper.rs:155-174 | follows the links to the table of a page exactly when it exists, inside the area |
| `PageTables.AddP3` | src/memory/paging/mapper.rs:200-208 | hanging in an empty P3 table keeps the tree invariant: every table has one parent entry and lies in the area |
| `PageTables.AddP2` | src/memory/paging/mapper.rs:213-221 | hanging in an empty P2 table keeps it too |
| `PageTables.SetLeaf` | src/memory/paging/mapper.rs:226-227 | setting an entry of a P2 table changes the meaning of one page only |
| `PageTables.RoomForPage` | src/memory/paging/mapper.rs:200-221 | one more page needs a table per slot it is the first to use |
| `PageTables.FitsIffInside` | src/memory/paging/mapper.rs:24-24 | the last table handed out lies inside the reserved area if and only if the pages ever mapped need at most 512 tables; the code does not check this |
| `PageTables.SpreadPages` | src/memory/paging/mapper.rs:57-58 | one page in each of n slots of the P4 table needs 2n + 1 tables, so 256 of them do not fit |
| `PageTables.MmuSees` | src/memory/paging/mapper.rs:185-237 | what the processor makes of the raw tables, entry by entry from the physical addresses, is the plain page map restricted to present pages, with just the rights of their flags |
| `PageTables.IndexBits` | src/memory/paging/mapper.rs:126-141 | the three indices are nine bits each of the page number, from the top down |
| `ProcessMemory.Memory.Alloc` | src/multitasking/process.rs:221-313 | on every exit path and for every range: the pages before the stopping point are dynamic with the new flags, all others are untouched, dynamic frames are distinct and back one page each, and frames are conserved; it stops early exactly at a page that is not its own, a page address outside both canonical halves (where the original panics), a page whose tables do not fit, or when memory runs out |
| `ProcessMemory.Memory.Dealloc` | src/multitasking/process.rs:315-371 | on every exit path and for every range: the pages before the stopping point are unmapped and exactly their dynamic frames are released, all others are untouched; it stops early exactly at a mapped page that is not its own, or at an address outside both canonical halves |
| `ProcessMemory.Memory.AllocPage` | src/multitasking/process.rs:262-309 | one page: new flags, or a new frame, or an error, or tables that do not fit, with the exact condition of each |
| `ProcessMemory.Memory.DeallocPage` | src/multitasking/process.rs:341-367 | one page: unmapped with its frame released, or left alone, or refused |
| `ProcessMemory.OwnNew` | src/multitasking/process.rs:292-308 | mapping a free frame at an unmapped page keeps the ownership rules |
| `ProcessMemory.OwnLess` | src/multitasking/process.rs:347-366 | unmapping a dynamic page and releasing its frame keeps them |
| `ProcessMemory.PagesFollow` | src/multitasking/process.rs:256-258 | consecutive addresses within one canonical half have consecutive page numbers |
| `ProcessMemory.PageBits` | src/multitasking/process.rs:256-258 | the page number is bits 21 to 47 of the address |
| `Disks.DiskCursor.Write` | modules/daemon_fatfs/src/cursor.rs:79-124 | completes if and only if the buffer is not empty and ends before the end of the disk; then, over any number of sectors and any caching, exactly the bytes from the cursor on are replaced on the flat disk and the cursor moves past them; otherwise nothing changes |
| `Disks.LastSectorRefused` | modules/daemon_fatfs/src/cursor.rs:89-101 | a whole last sector lies on the disk, and yet the write asks for the sector behind it |
| `Disks.EndsOnDisk` | modules/daemon_fatfs/src/cursor.rs:88-89 | a position is on the flat disk exactly when its sector is on the disk |
| `Disks.WriteFlat` | modules/daemon_fatfs/src/cursor.rs:112-120 | the patched sectors, laid flat, are the old disk with just the buffer replaced |
| `Disks.WriteRange` | modules/daemon_fatfs/src/cursor.rs:82-101 | which sectors a write reads and replaces, for starts and ends inside or at the edge of a sector |
| `Disks.DiskCursor.WriteSectors` | modules/daemon_fatfs/src/cursor.rs:118-120 | writing chunk by chunk equals replacing the sectors at once |
| `Disks.DiskCursor.Read` | modules/daemon_fatfs/src/cursor.rs:58-69 | the read loop as it is, including where it panics |
| `Disks.ReadRightIff` | modules/daemon_fatfs/src/cursor.rs:58-69 | a read finishes with the cursor in the right place if and only if it is empty or stays within one sector of the disk |
| `Disks.ReadFlat` | modules/daemon_fatfs/src/cursor.rs:58-69 | and then it returns the bytes of the flat disk |
| `Disks.ReadTwoSectors` | modules/daemon_fatfs/src/cursor.rs:65-66 | on every disk, reading the first two sectors gives the right bytes and leaves the cursor one sector too far |
| `Disks.ReadSkips` | modules/daemon_fatfs/src/cursor.rs:58-69 | what a read of any length from the start of a sector does on every disk: it takes the sectors 0, 1, 3, 6, ... behind it, panics exactly if one of them is missing, and where it leaves the cursor |
| `Disks.ReadInside` | modules/daemon_fatfs/src/cursor.rs:58-69 | a read from inside a sector is right if it stays in that sector of the disk, and panics otherwise |
| `Disks.DiskCursor.MoveCursor` | modules/daemon_fatfs/src/cursor.rs:39-50 | moves the flat position by the amount |
| `Disks.DiskAccess.Read` | modules/daemon_fatfs/src/cache.rs:27-43 | returns the sector on the disk, cached or not, and keeps cache and disk equal |
| `Disks.DiskAccess.Write` | modules/daemon_fatfs/src/cache.rs:45-51 | writes through: disk and cache agree again, whatever was evicted |
| `VirtualAllocator.RunDivides` | src/memory/virt/allocator.rs:21-62 | over every sequence of positive allocations and frees of owned regions, sorted, disjoint, aligned free blocks and live regions divide the window, and every owned region can be freed |
| `VirtualAllocator.AllocationKeeps` | src/memory/virt/allocator.rs:21-39 | an allocation moves exactly the region handed out |
| `VirtualAllocator.FreeingKeeps` | src/memory/virt/allocator.rs:41-62 | a free moves exactly the region given back |
| `VirtualAllocator.LegalFree` | src/memory/virt/allocator.rs:44-49 | freeing an owned region never reports a double free |
| `VirtualAllocator.EmptyAllocation` | src/memory/virt/allocator.rs:27-34 | an empty allocation succeeds without taking anything, and giving it back at once is reported as a double free |
| `VirtualAllocator.EmptyFree` | src/memory/virt/allocator.rs:41-62 | giving an empty region back is reported as a double free exactly where a free block starts, changes nothing where one ends, and breaks the free list everywhere else |
| `VirtualAllocator.EmptyFreedLater` | src/memory/virt/allocator.rs:41-62 | an empty allocation that is kept while another one is made breaks the free list when it is given back |
| `VirtualAllocator.AllocatesLowest` | src/memory/virt/allocator.rs:21-39 | there is room exactly when a block is large enough, and then the lowest such block is used, from its start |
| `VirtualAllocator.FreeingMerges` | src/memory/virt/allocator.rs:53-60 | giving back a region makes a bordering free block larger, and adds a block exactly when there is none |
| `VirtualAllocator.SeparateIff` | src/memory/virt/allocator.rs:53-60 | free blocks that do not border on each other stay so exactly unless the region given back lies between two of them |
| `VirtualAllocator.Fragments` | src/memory/virt/allocator.rs:53-60 | a run after which nothing is in use and yet the whole window cannot be allocated any more |
| `VirtualAllocator.FirstFit` | src/memory/virt/allocator.rs:24-37 | the first block with enough pages |
| `VirtualAllocator.FreeList.Allocate` | src/memory/virt/allocator.rs:21-39 | the scan allocates from the first fitting block, or finds none |
| `VirtualAllocator.FreeList.Find` | src/memory/virt/allocator.rs:44-49 | binary search for the place of a block |
| `VirtualAllocator.FreeList.Free` | src/memory/virt/allocator.rs:41-62 | extends a neighbour or inserts a block, or reports a double free |
| `Arguments.Exec` | libs/libd7/src/syscall.rs:75-94 | end to end: the child iterates exactly the list the caller gave, if and only if sizes, string lengths and stack allow it; and where the initial frame starts |
| `Arguments.Encode` | libs/libd7/src/syscall.rs:80-87 | builds count, lengths and texts |
| `Arguments.Decode` | src/syscall/mod.rs:155-173 | the decoding loop, with its refusals and panics, for arbitrary bytes |
| `Arguments.DecodeEncoded` | src/syscall/mod.rs:155-173 | decoding an encoded list gives it back, unless it is too large or a string is too long |
| `Arguments.DecodedIff` | src/syscall/mod.rs:155-173 | arbitrary bytes are decoded to a list exactly when they begin with its encoding, all texts are short and the bytes are not too many, which is refused; in all other cases the kernel panics |
| `Arguments.Stack.Populate` | src/multitasking/process.rs:393-469 | fills the stack from its end with arguments, padding and return frame, if and only if these fit; the return frame lies 16 slots above the initial stack pointer, which is inside the stack if and only if all 21 slots fit |
| `Arguments.TopHolds` | src/multitasking/process.rs:414-469 | a populated stack has the arguments where the child looks for them, and in its return frame the entry point, code segment, flags, stack address and stack segment, in this order |
| `Arguments.FrameTooLow` | src/multitasking/process.rs:409-412 | 524282 empty arguments are let through by every stage although the initial frame starts below the stack |
| `Arguments.Stack.PushArgs` | src/multitasking/process.rs:442-452 | pushing downwards lays the texts out in order below the lengths |
| `Arguments.Args.constructor` | libs/libd7/src/env.rs:48-67 | starts at the first text |
| `Arguments.Args.Next` | libs/libd7/src/env.rs:14-30 | yields the next argument, or nothing after the last |
| `Arguments.Collect` | libs/libd7/src/env.rs:11-30 | iterating yields the whole list |
| `Checksums.InetChecksum` | libs/d7net/src/checksum.rs:2-17 | the 16-bit loop with carries computes the complement of the one's complement sum of section 1 of RFC 1071, for even and odd lengths; a second carry cannot occur |
| `Checksums.FoldStep` | libs/d7net/src/checksum.rs:6-14 | adding a word with end-around carry is addition of the one's complement values |
| `Checksums.ChecksumVerifies` | libs/d7net/src/checksum.rs:2-17 | data with its checksum in a zeroed even field sums up to zero |
| `Checksums.ChecksumTells` | libs/d7net/src/checksum.rs:2-17 | changing any single byte changes the checksum |
| `Checksums.WordSumIsByteSum` | libs/d7net/src/checksum.rs:6-14 | the sum of words counts every byte once, at even places 256 times, a last odd one included |
| `Packets.Ipv4Verifies` | libs/d7net/src/ipv4.rs:60-75 | a built IPv4 header sums up to zero |
| `Packets.Ipv4RoundTrip` | libs/d7net/src/ipv4.rs:39-58 | parsing a built header gives its fields back, with the payload length, whatever follows |
| `Packets.TcpVerifies` | libs/d7net/src/builder/ipv4_tcp.rs:46-70 | pseudo header and built TCP segment sum up to zero, for every payload |
| `Packets.UdpVerifies` | libs/d7net/src/builder/ipv4_udp.rs:39-61 | pseudo header and built UDP datagram sum up to zero, for every payload |
| `Packets.SegmentRoundTrip` | libs/d7net/src/tcp/segment.rs:36-69 | parsing a built segment, with any option bytes behind its header, gives its fields back, with the low five flag bits, what the options say, and the payload |
| `Packets.Ipv4ReadBack` | libs/d7net/src/ipv4.rs:39-58 | which bytes are read as a header and which panic; building what was read gives the same bytes again |
| `Packets.UdpReadBack` | libs/d7net/src/udp.rs:9-53 | the same for datagrams |
| `Packets.SegmentReadBack` | libs/d7net/src/tcp/segment.rs:36-69 | the same for segments, exactly if they have none of the flag and urgent bits that the parser drops |
| `Packets.OptionsReadIff` | libs/d7net/src/tcp/segment.rs:100-124 | options are read exactly when they are a list of paddings and maximum sizes up to the end or its mark, and the last size counts |
| `Packets.ReadOptions` | libs/d7net/src/tcp/segment.rs:100-124 | the loop over the option bytes, including where it panics |
| `Packets.Ipv4OnTheWire` | libs/d7net/src/ipv4.rs:60-75 | the bytes of the header of section 3.1 of RFC 791 one by one |
| `Packets.TcpOnTheWire` | libs/d7net/src/builder/ipv4_tcp.rs:46-70 | the bytes of the segment of section 3.1 of RFC 793 one by one; with addresses, 0, 6 and the length in two bytes before it, it sums up to zero |
| `Packets.UdpOnTheWire` | libs/d7net/src/builder/ipv4_udp.rs:39-61 | the bytes of the datagram of RFC 768 one by one; with addresses, 0, 17 and the length in two bytes before it, it sums up to zero |
| `Packets.TcpRoundTrip` | libs/d7net/src/tcp/segment.rs:11-17 | parsing a built packet recovers header, segment and payload even with padding behind it, if it fits the 16-bit length |
| `Packets.TooLongIsCut` | libs/d7net/src/ipv4.rs:64-64 | a payload that does not fit the 16-bit length never comes back whole |
| `Packets.UdpRoundTrip` | libs/d7net/src/udp.rs:9-13 | parsing a built datagram recovers ports, length and payload even with padding behind it |
| `Packets.DatagramTooLongIsCut` | libs/d7net/src/builder/ipv4_udp.rs:39-61 | a UDP payload that does not fit the 16-bit length never comes back whole |
| `Packets.Ipv4ToBytes` | libs/d7net/src/ipv4.rs:60-75 | pushes the fields and patches the checksum |
| `Packets.BuildTcp` | libs/d7net/src/builder/ipv4_tcp.rs:46-70 | assembles the packet as specified |
| `Packets.BuildUdp` | libs/d7net/src/builder/ipv4_udp.rs:39-61 | assembles the packet as specified |
| `Names.ReadName` | libs/d7net/src/dns.rs:102-145 | on any bytes: returns the joined labels and the bytes taken if and only if there is a finite trail of labels and jumps, panics if and only if a round of the loop does, and otherwise never returns |
| `Names.ReturnsIff` | libs/d7net/src/dns.rs:102-145 | the loop ends exactly on names with a trail; one that panics or is still going after more rounds than there are bytes has none |
| `Names.NeverEnds` | libs/d7net/src/dns.rs:106-117 | a loop that has not ended after one round more than there are bytes goes on forever |
| `Names.CircularName` | libs/d7net/src/dns.rs:107-117 | a label followed by a jump back to it is such a name |
| `Names.MakeQuestion` | libs/d7net/src/dns.rs:81-100 | writes the question, if and only if all labels are non-empty, ASCII and shorter than 64 |
| `Names.QuestionRoundTrip` | libs/d7net/src/dns.rs:81-145 | reading the name of a question gives the domain back and consumes its length plus two bytes |
| `Names.QuestionBytes` | libs/d7net/src/dns.rs:81-100 | the bytes of a question of section 4.1 of RFC 1035 one by one: id, flags and counts, the labels, their end, type and class |
| `Names.CompressedName` | libs/d7net/src/dns.rs:107-117 | labels followed by a jump read as the joined labels of both, and end with the two jump bytes (section 4.1.4 of RFC 1035) |
| `Names.JoinSplit` | libs/d7net/src/dns.rs:89-95 | splitting a name at the dots and joining the labels gives it back |
| `Names.SplitJoin` | libs/d7net/src/dns.rs:89-95 | joining labels without dots and splitting gives the labels back |
| `Names.TrailUnique` | libs/d7net/src/dns.rs:102-145 | the bytes determine the trail, so the result |
| `Services.SpawnedOnce` | modules/daemon_service/src/lib.rs:112-128 | with unique names, in every state of every run no service has been spawned twice or is both spawned and queued |
| `Services.StepSpawnsReady` | modules/daemon_service/src/lib.rs:112-128 | a step spawns only services whose requirements are all registered, and leaves none of those behind |
| `Services.RunOrderly` | modules/daemon_service/src/lib.rs:131-193 | in every state of every run nobody is parked who is already satisfied, and every service is queued or spawned |
| `Services.StartUpEnds` | modules/daemon_service/src/lib.rs:112-128 | if requirements are defined and acyclic, a run that as often as there are ranks makes a step and lets all spawned services register, with none ending, has emptied the start queue |
| `Services.CycleNeverStarts` | modules/daemon_service/src/lib.rs:95-97 | services that require each other in a circle are never spawned while only spawned services register |
| `Services.AnsweredOnce` | modules/daemon_service/src/lib.rs:131-183 | one request is answered at once or parked, and everyone who is unparked is answered, exactly once |
| `Services.AnsweredInRun` | modules/daemon_service/src/lib.rs:131-193 | at every point of every run the requests made with a token are the answers given to it and those still parked |
| `ServiceRuns.AnsweredWhenUp` | modules/daemon_service/src/lib.rs:131-183 | in every run a request to wait for all or for any of some names is acknowledged in the first operation after which that is the case, in no other, and is never refused |
| `ServiceRuns.AnsweredAtOnceIff` | modules/daemon_service/src/lib.rs:166-183 | such a request is acknowledged at once exactly when it is satisfied, and parked otherwise |
| `ServiceRuns.LeavesIff` | modules/daemon_service/src/lib.rs:131-163 | a parked request leaves, acknowledged, exactly when a registration satisfies it |
| `ServiceRuns.NackedIff` | modules/daemon_service/src/lib.rs:131-134 | a registration is refused exactly when its name is taken, which changes nothing |
| `ServiceRuns.OnlyTakenRefused` | modules/daemon_service/src/lib.rs:131-183 | nothing else is ever refused |
| `ServiceRuns.RegisteredSince` | modules/daemon_service/src/lib.rs:185-193 | in every run a name is registered exactly while its service has not ended since the registration, or is one-shot and ended well |
| `ServiceRuns.RegisteredIff` | modules/daemon_service/src/lib.rs:131-193 | what one operation does to the registered names |
| `ServiceRuns.StepOrder` | modules/daemon_service/src/lib.rs:112-128 | a step starts the ready services in the reverse order of the queue, and the others keep their order |
| `ServiceRuns.StepManages` | modules/daemon_service/src/lib.rs:101-109 | each service that is started is managed under its own new process id |
| `Services.Extract` | modules/daemon_service/src/lib.rs:123-127 | collecting indices and removing them from the last to the first splits the list into kept and taken elements |
| `Services.Manager.Step` | modules/daemon_service/src/lib.rs:112-128 | starts the ready services as specified |
| `Services.Manager.OnRegister` | modules/daemon_service/src/lib.rs:131-163 | registers a free name and answers the waiters satisfied by it |
| `Services.Manager.OnWaitAny` | modules/daemon_service/src/lib.rs:166-173 | answers or parks |
| `Services.Manager.OnWaitAll` | modules/daemon_service/src/lib.rs:176-183 | answers or parks |
| `Services.Manager.OnProcessCompleted` | modules/daemon_service/src/lib.rs:185-193 | forgets a finished service unless it is one-shot and ended well |

## Left out

- Interrupt entry code, register saving and switching of address spaces: the model says which process the kernel selects, not which instruction the processor resumes.
- Reading system call arguments from process memory: a call carries its arguments.
- Serialisation of messages: whether one fits a receive buffer is an arbitrary predicate of the call.
- System calls that touch neither scheduler nor IPC: they are the call `Plain` with an arbitrary answer, or `Broken`.
- Hardware drivers, boot loader, console, logging, key maps, DMA and descriptor tables: port I/O or easy members only.
- The physical allocator, the heap, the LRU cache crate and the serialisation crate: replaced by a pool of free frames, arbitrary eviction and untouched payloads.
- `EventQueue` is a value inside its mailbox, because the source owns it by value there; the methods of the manager update it by replacing the mailbox.
- `memory_slice`, `mmap_physical` and translation look-aside flushing: they need a model of aliased physical memory.
- What `map_to` overwrites behind its table area, and frame contents in general: only ownership and mappings are modelled.
- A table is a value of 512 entries inside an array of tables, so bit layout and unsafe access to entries are not captured.
- Wrap-around of 64-bit ids and of hostile argument counts; an address sum past the top of the address space counts as a panic.
- UTF-8 validation: a topic that is not UTF-8 counts as an invalid topic, and arguments are byte strings.
- Liveness of blocked senders: nothing forces a receiver to acknowledge.
- `parse_reply` of DNS beyond names.
- TCP connection handling: it rests on a socket crate that is not part of this model.
- `seek`, `flush` and `read_exact` of the disk cursor: thin wrappers.
- The executable path and the initrd check of the service manager.
