# A verified model of the DECT NR+ MAC slice

The program runs HARQ (ETSI TS 103 636-4, section 5.5) on top of a scheduler for a PHY interface that is
not thread-safe. This project models four of its parts and proves what they promise. Run
`dafny verify dfyconfig.toml` to check it.

**The operation queue** (`QueueModel`, `PhyQueue`). Any number of callers, a bounded message queue, the put
thread, the exec thread, the retry timer and the modem callbacks are one step system: a program counter per
thread, one step per access to something shared, in any order. The mutex is a field of the state, so that
what it protects is proved and not assumed. The modem is an environment that reports on its jobs when and
how it likes, and delivers requests of other devices while it receives: each sends an acknowledgement past the
queue and puts a placeholder. `QueueTheorems` states the results for every run; `PhyQueue` is the program's
own form, a class that carries the run it has made: each method changes the fields as the program does and
appends one event to that run, so what is proved of runs holds of the object.

* Every run keeps five invariants: slab use, list length and counts (`QueueBuffers`), service order
  (`QueueOrder`), one place for every accepted operation (`QueueConservation`), and the account of the
  permit and of every single operation (`QueuePermit`).
* Mutual exclusion depends on when acknowledgements end. `ExclusionExact`: a run has at most one permit
  throughout if and only if every acknowledgement that ends in it is *covered*, a condition on the state it
  ends in (`Covered` in `QueueExclusive`). What the program means to do, executing the placeholder before the
  acknowledgement ends, is enough (`OrderlyRunsAreCovered`). `QueueRuns` has runs in which it goes wrong.
* `QueueJobs` follows an operation through the modem: what is handed over, and how every report ends it. `QueueFifo`
  follows it from its caller to the dispatch.
* The queue can stop for good in two ways: `ExhaustedSlabStopsTheQueue` and `StoppedForGood`.

**The HARQ process pool** (`HarqModel`, `HarqPool`). One event per function call: transmit, ACK, NACK, format
6, timer, work handler, request. The heap is modelled with its live blocks, their contents, and the blocks
given back. What a process handed to the queue since its last transmit or re-initialisation is kept beside
it. `HarqTheorems` states the results for every run, `HarqHistory` what a process is as a function of the events alone; `HarqPool` is the class over the program's two arrays.

**Rates, power and nodes** (`Rates`, `NodeModel`, `NodeTable`, `TxConfig`). The escalation loop that changes the
node table while it searches a table of capacities that is not monotone, the choice of the power, and the
clean pass with its look-ahead iterator.

**Bits** (`PhyTypes`, `Wire`, `Exchange`). Handle, feedback and header, written in one file and read in another, and the
path of an acknowledgement from the request it answers back to the process that transmitted. `Exchange`
joins them: for every descriptor of every run, the answer comes back to its process.

Where the code and its documentation or comments disagree, the model follows the code:

* `src/dect_mac_node.h:10-12` promises a minimum time for which an unused node is kept. A node that a lookup
  has just created is unmarked, and the next pass deletes it (`FreshNodeDiesAtOnce`; `SurvivesPass` says
  exactly which nodes stay).
* `src/dect_mac_node.c:538-549` wants to clamp the power at both ends. The 8-bit sum is unsigned, so a sum
  below zero becomes full power (`AddPowerClamps`). In the same way a large transmission
  count lowers the power it should raise (`RetransmissionRaisesPower`).
* `src/dect_mac_phy_handler_cb.c:145` is meant to accept broadcasts and compares the high byte twice: it
  accepts every receiver with high byte 255 (`ResponseFilter`).
* When no rate holds the data, an error is logged, and the header is still sent: packet length 16 does not
  fit into its four bits and is announced as 0 (`AnnouncedHolds`, `Configure`).
* A TX_RX whose transmission phase is reported with an error keeps the state TRANSMITTING. If its reception then ends
  well, that report is taken for the first one, and the permit is never given (`ReportsSettle`).
* Responses are not matched against the transmission they belong to: after a NACK for a process that is
  already free, the next packet's first transmission does not start with redundancy version 0
  (`FirstVersion`, `StaleNackStartsAtVersionTwo`).

Fields described as bookkeeping (tickets, stamps, logs, totals, tracks) are not in the program. No step
tests them; they let the properties be stated.

## Model

| member | source | states |
|---|---|---|
| QueueTheorems.RunInvariant | src/dect_mac_phy_handler_queue.c:21-287 | every state of every run, for all callers, thread interleavings, modem reports and timer steps, satisfies the five invariants together |
| QueueTheorems.NothingBlocksOrOverflows | src/dect_mac_phy_handler_queue.c:12-48 | in every run: slab use equals queue length plus what callers and the put thread hold, at most 8; a caller that got an item never waits at the K_FOREVER put; list accesses are inside the mutex; no give of the list count is swallowed; exec never takes from an empty list and the "queue is full" branch is never taken |
| QueueTheorems.ExhaustedSlabStopsTheQueue | src/dect_mac_phy_handler_queue.c:88-94 | the put thread ends inside its critical section if and only if all eight nodes are in use, and from then on, in every continuation, nothing is dispatched |
| QueueTheorems.PermitAccount | src/dect_mac_phy_handler_queue.c:205-221 | in every run: free, held, outstanding and retrying operations are at most 1 + acknowledgements ended - placeholders executed, plus permits given early, as part of an exact account |
| QueueTheorems.ExclusionExact | src/dect_mac_phy_handler_queue.c:216-287 | for every run: there is always at most one permit (free, held by exec, with an operation, or with the retry timer) if and only if every acknowledgement that ends is covered |
| QueueTheorems.OrderlyRunsAreCovered | src/dect_mac_harq.c:46-60 | if no acknowledgement ends before its placeholder was executed, every one is covered |
| QueueTheorems.OneOperationAtATime | src/dect_mac_phy_handler_queue.c:216-287 | in covered runs the permit is in at most one place, the account says how it can be in none (lost, or given away by a placeholder), and none is given at the first report of a TX_RX |
| QueueTheorems.ReservationHolds | src/dect_mac_harq.c:46-60 | in covered runs, while more placeholders were executed than acknowledgements ended, nothing of the queue is with the modem or the timer and no operation can be started |
| QueueTheorems.RetriesAreBounded | src/dect_mac_phy_handler_queue.c:148-153 | in covered runs a dispatched operation is handed to the modem at most 1 + MAX_RETRY times, each time with its function and parameters up to the queue flag; its permit is given at most once and not before the end; it is given or lost exactly once unless an acknowledgement came too late |
| QueueTheorems.StoppedForGood | src/dect_mac_phy_handler_queue.c:216-228 | with no permit anywhere and no acknowledgement with the modem, every continuation of the run dispatches, starts, retries and acknowledges nothing |
| QueueExclusive.UncoveredBreaks | src/dect_mac_phy_handler_cb.c:33-71 | from a state with at most one permit, an acknowledgement that is not covered makes two |
| QueueRuns.EarlyAcknowledgement | src/dect_mac_harq.c:46-60 | a run from boot: during a reception a request is acknowledged, the acknowledgement ends before the placeholder is executed, and the permit is free under the reception |
| QueueRuns.TwoAtOnce | src/dect_mac_phy_handler_queue.c:216-262 | ... and the exec thread hands a second operation to the modem |
| QueueRuns.EarlyPermit | src/dect_mac_phy_handler_cb.c:49-71 | ... and then the permit of a TX_RX is given at its first report, because the state has changed under it |
| QueueRuns.AbsorbedAcknowledgement | src/dect_mac_phy_handler_cb.c:64-71 | a run whose early acknowledgement is covered and harmless: the permit is free, and the give is swallowed |
| QueueRuns.LateReservationStops | src/dect_mac_phy_handler_cb.c:35-39 | a reservation whose only acknowledgement misses its start time: the timer executes the placeholder again, and the queue has stopped |
| QueueRuns.LateAcknowledgement | src/dect_mac_phy_handler_queue.c:265-287 | a run from boot that ends there, with a transmission still listed |
| QueueTheorems.DispatchOrder | src/dect_mac_phy_handler_queue.c:117-138 | every dispatch of every run is the longest listed operation of the highest listed priority, and a permanent one only if nothing else is listed; the order before the list is FirstComeFirstServed |
| QueueFifo.MessagesInOrder | src/dect_mac_phy_handler_queue.c:48-68 | in every run the items sent to the message queue, in order, are those the put thread has got followed by those queued |
| QueueFifo.FirstComeFirstServed | src/dect_mac_phy_handler_queue.c:48-240 | in every run, of two operations of equal priority that are not permanent, the one sent first is dispatched first |
| QueueFifo.StepKeepsAhead | src/dect_mac_phy_handler_queue.c:58-251 | every step keeps an operation ahead of one sent later: in message queue, put thread, list and log |
| QueueTheorems.PermanentOperationsTakeTurns | src/dect_mac_phy_handler_queue.c:235-251 | round robin in every run: between two consecutive dispatches of a permanent operation the others listed at the first are dispatched, once each and in list order, and none added later is |
| QueueTheorems.NothingLost | src/dect_mac_phy_handler_queue.c:21-139 | in every run an accepted operation is in exactly one place, arrives as it was put, and is dispatched at most once if it is not permanent |
| QueueBuffers.StepKeepsBuffers | src/dect_mac_phy_handler_queue.c:58-146 | every step keeps the counts of slabs, message queue, list and list semaphore and the meaning of the mutex |
| QueueBuffers.PutNeverBlocks | src/dect_mac_phy_handler_queue.c:48 | with an item allocated, at most seven messages are queued |
| QueueBuffers.NoLostCount | src/dect_mac_phy_handler_queue.c:141-144 | gives are not swallowed, list accesses are exclusive, the list is neither empty at a pop nor full at a link |
| QueueBuffers.StuckForever | src/dect_mac_phy_handler_queue.c:90-94 | after the early return no step gets the mutex or dispatches |
| QueueOrder.StepKeepsOrder | src/dect_mac_phy_handler_queue.c:110-139 | every step keeps the list strictly ordered by priority and time of insertion, also the re-append of a permanent node |
| QueueOrder.DispatchIsFirst | src/dect_mac_phy_handler_queue.c:235-240 | the head comes before every other listed node, and a permanent head means that all are permanent |
| QueueOrder.RotationStep | src/dect_mac_phy_handler_queue.c:243-247 | a dispatched permanent operation moves from the front of the rotation to its back, a new one joins at the back, nothing else changes it |
| QueueOrder.TurnStep | src/dect_mac_phy_handler_queue.c:243-247 | every step keeps: those served since are the first of the rotation in order, the rest is still ahead |
| QueueOrder.RoundRobin | src/dect_mac_phy_handler_queue.c:235-251 | when the turn comes back, exactly the others were served, in order |
| QueueConservation.StepConserves | src/dect_mac_phy_handler_queue.c:21-139 | every step keeps: the operations in all places together are, as a multiset, the accepted puts |
| QueueConservation.OnePlace | src/dect_mac_phy_handler_queue.c:26-55 | an accepted operation is in exactly one place |
| QueueConservation.DispatchedOnce | src/dect_mac_phy_handler_queue.c:248-251 | a non-permanent operation occurs once among the dispatched ones |
| QueueConservation.ListedDistinct | src/dect_mac_phy_handler_queue.c:110-139 | no operation is listed twice |
| QueuePermit.StepBalances | src/dect_mac_phy_handler_queue.c:216-287 | every step keeps the account of permits: what is free, in use, lost or swallowed, against acknowledgements and placeholders |
| QueuePermit.ReportBalances | src/dect_mac_phy_handler_cb.c:26-83 | a report on an operation, of either phase and with any error, moves its permit and makes none; a failed measurement is reported to op_complete |
| QueuePermit.StepKeepsLedger | src/dect_mac_phy_handler_queue.c:148-192 | every step keeps: each call to the modem was made with the function and the flagged parameters of a dispatched operation, and current_node is the one started last |
| QueueExclusive.ReportExclusive | src/dect_mac_phy_handler_cb.c:26-72 | a report keeps exclusion: the first one of a TX_RX leaves the permit in use, the last one gives it once, starts the retry timer or loses it |
| QueueExclusive.FireExclusive | src/dect_mac_phy_handler_queue.c:284-287 | a retry keeps exclusion and the count of tries |
| QueueExclusive.AckExclusive | src/dect_mac_phy_handler_cb.c:62-71 | the end of a covered acknowledgement keeps exclusion and all accounts |
| QueueExclusive.StepExclusive | src/dect_mac_phy_handler_queue.c:216-287 | every covered step keeps exclusion and all accounts |
| QueueJobs.JobsAreAsPut | src/dect_mac_phy_handler_queue.c:169-188 | in every run each job of the modem is for an operation that was dispatched and handed to it, with that operation's function and its own flagged handle |
| QueueJobs.OneJob | src/dect_mac_phy_handler_queue.c:148-214 | in covered runs the only job is the operation started last, and current_state tells its phase |
| QueueJobs.ReportsSettle | src/dect_mac_phy_handler_cb.c:26-83 | in covered runs every report has its exact outcome: a missed start time arms the timer, or gives the permit after MAX_RETRY failures; the first report of a TX_RX keeps the permit; the last one gives it on success and loses it on an error |
| QueueJobs.TimerOfTheOperation | src/dect_mac_phy_handler_cb.c:49-63 | in covered runs the end of a TX_RX's transmission arms the timer of process n if and only if the operation was put with handle HANDLE_HARQ + n |
| QueueJobs.ReportEffect | src/dect_mac_phy_handler_cb.c:26-72 | the outcome of a report on a radio job in any state, also when the state has changed under it |
| QueueJobs.ExecuteEffect | src/dect_mac_phy_handler_queue.c:148-214 | a start hands over the operation's own handle, flagged and with its code, and announces its state; a placeholder reserves; a call the modem refuses loses the permit |
| PriorityList.InsertOrdered | src/dect_mac_phy_handler_queue.c:110-139 | inserting the newest node keeps the list ordered |
| PriorityList.InsertItems | src/dect_mac_phy_handler_queue.c:110-139 | insertion adds the node and nothing else |
| PriorityList.AppendIsInsert | src/dect_mac_phy_handler_queue.c:243-247 | appending a permanent node at the tail is an insertion by priority |
| PriorityList.InsertAt | src/dect_mac_phy_handler_queue.c:117-133 | the position the scan finds is where the recursive insertion puts the node |
| PhyQueueObject.PhyQueue.constructor | src/dect_mac_phy_handler_queue.c:6-19 | the boot state, with the empty run |
| PhyQueueObject.PhyQueue.Allocate | src/dect_mac_phy_handler_queue.c:24-45 | one allocation event of the object's run; it is refused if and only if eight puts are under way, else the item has the given function, parameters (or zeros) and priority |
| PhyQueueObject.PhyQueue.Submit | src/dect_mac_phy_handler_queue.c:47-53 | one event; any caller with an item may make it, because there always is room in the message queue |
| PhyQueueObject.PhyQueue.GetItem | src/dect_mac_phy_handler_queue.c:62-73 | one event; the oldest message is taken |
| PhyQueueObject.PhyQueue.AllocateNode | src/dect_mac_phy_handler_queue.c:84-94 | one event; the early return is taken if and only if all eight nodes are listed or in the exec thread's hand |
| PhyQueueObject.PhyQueue.Link | src/dect_mac_phy_handler_queue.c:102-139 | one event; the list has room, the scan adds the node and nothing else, and the list stays ordered by priority and age |
| PhyQueueObject.PhyQueue.GiveLinked | src/dect_mac_phy_handler_queue.c:143-144 | one event; the give is not swallowed |
| PhyQueueObject.PhyQueue.Pop | src/dect_mac_phy_handler_queue.c:235-240 | one event; the list is not empty, and the node taken is to be served before all that stay |
| PhyQueueObject.PhyQueue.Requeue | src/dect_mac_phy_handler_queue.c:242-251 | one event; a permanent node goes to the tail, the block of another one is freed, and order and rotation are kept |
| PhyQueueObject.PhyQueue.Run | src/dect_mac_phy_handler_queue.c:257-261 | one event; the permit goes to exactly one of modem, reservation or loss, and all calls for the operation have its function and flagged parameters |
| PhyQueueObject.PhyQueue.FunctionExecute | src/dect_mac_phy_handler_queue.c:148-214 | every execution uses exactly one permit: for a job of the modem with the operation's own flagged handle, for a placeholder, or it is lost |
| PhyQueueObject.PhyQueue.OperationFailedRetry | src/dect_mac_phy_handler_queue.c:265-282 | every failure brings back exactly one permit, to the timer for MAX_RETRY times and then to the semaphore, unless there already is one |
| PhyQueueObject.PhyQueue.TimerCallback | src/dect_mac_phy_handler_queue.c:284-287 | one event; the timer's permit goes to exactly one place, and the calls made are for the operation started last |
| PhyQueueObject.PhyQueue.OpCompleteCallback | src/dect_mac_phy_handler_cb.c:26-72 | one event; the tests on state, error and handle bits have the outcome of ReportEffect: retry, kept for the second report, lost, or given; the permit is moved and none is made |
| PhyQueueObject.PhyQueue.PlainCallback | src/dect_mac_phy_handler_cb.c:229-291 | one event; success gives the permit, an error loses it, except for a measurement that is tried again; none is made |
| PhyQueueObject.PhyQueue.SendAcknowledgement | src/dect_mac_harq.c:46-58 | one event; the acknowledgement goes to the modem, whoever has the permit |
| PhyQueueObject.PhyQueue.PutPlaceholder | src/dect_mac_harq.c:59 | one event; a placeholder of highest priority, or none if eight puts are under way |
| PhyQueueObject.PhyQueue.AcknowledgementReport | src/dect_mac_phy_handler_cb.c:33-71 | one event; the end of an acknowledgement brings in at most the one permit it accounts for |
| PhyTypes.HandleLayout | src/dect_mac_phy_handler.c:204-206 | code in the top four bits, flag in bit 27, user handle below |
| PhyTypes.HandleWords | src/dect_mac_phy_handler.c:204-206 | the top five bits of the words the modem gets for the four radio operations |
| PhyTypes.CodesDiffer | src/dect_mac_phy_handler_types.h:8-22 | no two functions share a code |
| PhyTypes.HandleRoundTrip | src/dect_mac_phy_handler_queue.c:169-188 | for every handle, function and state: op_complete recovers operation code and queue flag, and holds back only a TX_RX that is transmitting |
| PhyTypes.HarqTimerExact | src/dect_mac_phy_handler_cb.c:55-63 | for 27-bit handles the timer of process n is armed if and only if the handle is HANDLE_HARQ + n, and none is if and only if the handle is outside the sixteen |
| PhyTypes.AcknowledgementReleases | src/dect_mac_harq.c:48 | the acknowledgement's own handle makes its end give the permit |
| HarqProofs.StepKeeps | src/dect_mac_harq.c:13-191 | every event keeps the pool's invariant: counts, descriptors, versions, heap and owners |
| HarqProofs.RunKeeps | src/dect_mac_harq.c:13-390 | every pool of every run satisfies it |
| HarqProofs.RefusedLaunchKeeps | src/dect_mac_harq.c:108-114 | when the allocation fails the process is free again and nothing leaked |
| HarqTheorems.TransmissionBound | src/dect_mac_harq.c:145-164 | in every run the descriptors handed over since the last transmit or re-initialisation are transmission_count many, at most CONFIG_HARQ_MAX_TRANSMISSIONS |
| HarqTheorems.PacketConsistency | src/dect_mac_harq.c:123-139 | they agree in data, length, receiver, process, handle and new-data bit, and each has the redundancy version 0, 2, 3, 1, ... of the NACKs at its time |
| HarqTheorems.TimerOfItsOwnProcess | src/dect_mac_harq.c:124 | the timer armed for such a descriptor is that of its process |
| HarqTheorems.HeapAccounting | src/dect_mac_harq.c:98-121 | in every run the live blocks are exactly the data pointers, unshared; a free process has none; every other block was freed exactly once |
| HarqTheorems.DataUnchanged | src/dect_mac_harq.c:117-121 | a live block never changes and a freed one never comes back |
| HarqTheorems.NewDataBit | src/dect_mac_harq.c:326-335 | after initialisation a step changes a process's new-data bit if and only if it is the transmit that takes it |
| HarqTheorems.FirstVersion | src/dect_mac_harq.c:130-136 | the first transmission has redundancy version 0 if and only if the NACKs counted for the process are a multiple of four |
| HarqTheorems.StaleNackStartsAtVersionTwo | src/dect_mac_harq.c:82-87 | a concrete run with a first transmission in version 2 |
| HarqTheorems.HandlerRunsCounted | src/dect_mac_harq.c:145-164 | without acknowledgement and request every run of the handler that leaves the process occupied is one transmission more |
| HarqTheorems.ReleasedByTheLastRun | src/dect_mac_harq.c:150-159 | the handler's run frees the process if and only if it was preceded by maximum - count runs |
| HarqTheorems.RetransmissionsCarryTheData | src/dect_mac_harq.c:166-188 | from a transmit until its process is released, every descriptor points to a live block with the transmitted bytes and names their receiver |
| HarqTheorems.WaitingDescriptor | src/dect_mac_harq.c:172-190 | a descriptor waiting in the queue points to a live block, with unchanged contents, if and only if its process was neither given back nor initialised anew since it was handed over |
| HarqTheorems.DanglingDescriptor | src/dect_mac_harq.c:77-82 | a queued retransmission whose data an acknowledgement frees |
| HarqHistory.VersionAndCount | src/dect_mac_harq.c:63-96 | in every run a process's redundancy version is that of the NACKs counted from the events since its last reset or refusal, and its count the descriptors counted from the events |
| HarqHistory.VersionCycle | src/dect_mac_harq.c:193-216 | the versions are 0, 2, 3, 1 and from the start again |
| HarqHistory.DescriptorVersion | src/dect_mac_harq.c:130-139 | every descriptor is handed over with the version of the NACKs counted from the events |
| HarqHistory.RefusalStartsOver | src/dect_mac_harq.c:90-95 | after a format 6 response the version is 0, the work handler is scheduled, nothing else changes, and the next descriptor has version 0 |
| HarqHistory.PendingExact | src/dect_mac_harq.c:75-95 | when the work handler of a process is scheduled: exactly which events schedule and cancel it, the armed timer included |
| HarqHistory.OccupiedExact | src/dect_mac_harq.c:318-354 | exactly which events occupy and free a process |
| HarqHistory.ResetExact | src/dect_mac_harq.c:356-368 | what an acknowledgement and a request leave of a process |
| HarqHistory.TransmitCodes | src/dect_mac_harq.c:98-114 | NO_FREE_HARQ if and only if all processes are occupied, NO_MEM_HEAP if and only if one is free and the allocator refuses; then no process stays occupied and no memory is held |
| HarqPoolObject.HarqPool.constructor | src/dect_mac_harq.c:8-10 | the boot state |
| HarqPoolObject.HarqPool.InitProcess | src/dect_mac_harq.c:356-368 | frees the data and clears the process, but neither its new-data bit nor its work item |
| HarqPoolObject.HarqPool.Initialize | src/dect_mac_harq.c:370-390 | once: all processes initialised, free, numbered, new-data bit set |
| HarqPoolObject.HarqPool.TakeProcess | src/dect_mac_harq.c:318-339 | occupies the first free process and toggles its bit, or returns null |
| HarqPoolObject.HarqPool.GiveProcess | src/dect_mac_harq.c:341-354 | clears and frees the process that its own number names, and cancels its work |
| HarqPoolObject.HarqPool.Transmit | src/dect_mac_harq.c:98-143 | one transmit event; the returned descriptor is the one recorded |
| HarqPoolObject.HarqPool.RetransmissionWorkHandler | src/dect_mac_harq.c:145-160 | one work event, with the effect on the receiver's node |
| HarqPoolObject.HarqPool.Retransmit | src/dect_mac_harq.c:162-191 | counts and builds the descriptor; a known receiver is marked, gets one MCS less down to 0 and count power codes more up to the limit while the sum fits eight bits; all other nodes are unchanged |
| HarqPoolObject.HarqPool.IncrementRedundancyVersion | src/dect_mac_harq.c:193-216 | from the version of k NACKs to the version of k + 1, for every k; other values stay |
| HarqPoolObject.HarqPool.Response | src/dect_mac_harq.c:63-96 | the event that format and feedback bit stand for, on the process the feedback names |
| HarqPoolObject.HarqPool.Request | src/dect_mac_harq.c:13-61 | re-initialises the process the header names, marks or creates the sender's node, answers past the queue and puts the placeholder: one event of the pool, two of the queue object; what the answer means is AnswerReachesProcess |
| HarqPoolObject.HoldsExact | src/dect_mac_harq.c:20-28 | which announced packets fit a process's share of the modem's buffer, also for entries without capacity and unknown MCS |
| HarqPoolObject.CqiExact | src/dect_mac_node.c:148-185 | the indicator on the air is the MCS plus one |
| HarqPoolObject.AnswerReachesProcess | src/dect_mac_harq.c:27-55 | the answer to a request, sent as bits, read back and dispatched by the requester, is an ACK, NACK or restart event of the process that transmitted, as the buffer share and the modem's verdict decide |
| HarqPoolObject.HarqPool.ArmTimer | src/dect_mac_phy_handler_cb.c:55-63 | one timer event |
| Wire.FeedbackRoundTrip | src/dect_mac_phy_handler_types.h:57-82 | every format 1 or 6 feedback survives the split into nibble and byte |
| Wire.FeedbackLayout | src/dect_mac_phy_handler_types.h:57-82 | the place of every feedback field |
| Wire.HeaderLayout | src/dect_mac_phy_handler_types.h:209-228 | the place of every header field |
| Wire.HeaderRoundTrip | src/dect_mac_phy_handler_types.h:209-228 | every type 2 header survives its 80 bits |
| Wire.BeaconRoundTrip | src/dect_mac_phy_handler_types.h:194-206 | every type 1 header survives its 40 bits |
| Wire.HeaderOnto | src/dect_mac_phy_handler_types.h:209-228 | every 80 bits are the header of one set of fields |
| Wire.TypeOneView | src/dect_mac_phy_handler_cb.c:107-111 | the type 1 view of a type 2 header gives transmitter and power always, and the MCS if and only if it is at most 7 |
| Wire.RequestFilter | src/dect_mac_phy_handler_cb.c:122-139 | a request is answered if and only if its network fits and it is addressed to the device or to all |
| Wire.ResponseExact | src/dect_mac_phy_handler_cb.c:141-157 | a response that is taken in is acted upon if and only if its feedback has format 1 or 6, with the fields it carries |
| Wire.ResponseFilter | src/dect_mac_phy_handler_cb.c:141-157 | a response is dropped if and only if the network differs, or it is neither addressed to the device or all nor has receiver high byte 255 |
| Wire.ForeignResponseTaken | src/dect_mac_phy_handler_cb.c:145 | a response for another device that is taken in |
| Wire.AcknowledgementFindsProcess | src/dect_mac_phy_handler.c:356-389 | an acknowledgement packed, read back and dispatched by the transmitter gives the same feedback, format and sender |
| Wire.HeaderReadBack | src/dect_mac_phy_handler.c:352-390 | what a receiver reads of a type 2 header, field by field, zero HARQ fields of an unacknowledged message included |
| Wire.BeaconReadBack | src/dect_mac_phy_handler.c:338-351 | what a receiver reads of a beacon: sender, network, rate |
| Exchange.RequestArrives | src/dect_mac_phy_handler.c:356-384 | a HARQ transmission packed and read back is dispatched as a request and shows the receiver process, new-data bit, redundancy version and transmitter |
| Exchange.AnswerIsForItsProcess | src/dect_mac_harq.c:122-139 | in every run, for every descriptor handed over: it arrives as a request, and the answer built for it arrives as an event of the process that handed it over, and of no other |
| Rates.Scan | src/dect_mac_utils.c:51-64 | finds the least packet of the row that holds the data, or none exactly if there is none |
| Rates.GetPacketLength | src/dect_mac_utils.c:45-64 | the same for the row of an MCS |
| Rates.CapacityIsNotMonotone | src/dect_mac_utils.c:38-43 | a size that fits MCS 2 and 4 and not 3 |
| Rates.RowsIncrease | src/dect_mac_utils.c:38-43 | in every row a longer packet holds more, and the entries without capacity come last |
| Rates.ColumnsIncrease | src/dect_mac_utils.c:38-43 | where both exist, the packet of a higher MCS holds more |
| Rates.BytesExact | src/dect_mac_utils.c:66-73 | the bytes read back are the capacity, 65535 for an entry without one, 0 for an unknown MCS or length |
| TxConfig.Round | src/dect_mac_phy_handler.c:307-315 | one round: MCS and power one step up within their limits, and whether the loop goes on |
| TxConfig.Escalate | src/dect_mac_phy_handler.c:307-315 | the loop ends after at most mcs_max - mcs + 1 rounds, with every row tried before too small |
| TxConfig.SelectRate | src/dect_mac_phy_handler.c:297-331 | the least MCS from the node's own on that holds the data, with its least packet; fails if and only if no row in reach fits; power min(CONFIG_TX_POWER, p + rounds); only this node changes |
| TxConfig.Configure | src/dect_mac_phy_handler.c:279-394 | for every usage, beacons included, the header announces the node's power and MCS and a packet that holds the data if and only if a rate was found; all other fields are the caller's |
| TxConfig.AnnouncedHolds | src/dect_mac_phy_handler.c:317-331 | packet length 16 is announced as 0, which does not hold the data |
| NodeModel.AddPowerClamps | src/dect_mac_node.c:538-549 | the power is clamped at both ends if and only if the sum is not negative (or the limit is 0) |
| NodeModel.NegativePowerWraps | src/dect_mac_node.c:538-549 | a negative sum that becomes full power |
| NodeModel.RetransmissionRaisesPower | src/dect_mac_harq.c:164-167 | adding the transmission count raises the receiver's power up to the limit if and only if the 8-bit sum does not wrap, else it lowers it; with at most 242 transmissions it never wraps |
| NodeModel.LookupExact | src/dect_mac_node.c:71-185 | a lookup marks a known node and changes nothing else; it creates an unknown one unmarked with full power and the highest MCS |
| NodeModel.ReduceMcsClamps | src/dect_mac_node.c:566-607 | the MCS is clamped at both ends, with the matching code, if and only if the 8-bit difference does not wrap (or the limit is 0) |
| NodeModel.DbmIncreases | src/dect_mac_node.c:341-395 | the power table is in ascending order |
| NodeModel.McsForHighest | src/dect_mac_node.c:484-509 | the chosen MCS is the highest one whose SNR threshold is reached, -1 if none is |
| NodeModel.PassExact | src/dect_mac_node.c:22-69 | a pass leaves the marked nodes, unmarked, with their power and MCS |
| NodeModel.PowerForLeast | src/dect_mac_node.c:409-475 | the chosen code is the least of 2 to 13 that reaches the wanted power, 13 if none does |
| NodeModel.ReplyReachesTarget | src/dect_mac_node.c:341-475 | the predicted RSSI reaches target + margin if and only if at most 19 dBm are wanted, and the next lower code would not reach it |
| NodeModel.PowerIsFixedPoint | src/dect_mac_node.c:400-475 | with a constant path loss the choice depends on the loss only |
| NodeModel.OperationsAreEvents | src/dect_mac_node.c:317-607 | the operations on the table are events of the expiry model |
| NodeModel.SurvivesPass | src/dect_mac_node.c:22-69 | of two consecutive passes the second leaves a node if and only if it was marked in between |
| NodeModel.MarkedNodesStay | src/dect_mac_node.c:22-69 | a node marked before every pass is never deleted, in any run |
| NodeModel.UnmarkedNodesGo | src/dect_mac_node.h:10-13 | a node not marked between two passes is gone |
| NodeModel.FreshNodeDiesAtOnce | src/dect_mac_node.c:71-107 | a node created by a lookup can be deleted by the next pass |
| NodeTableObject.NodeTable.CreateNode | src/dect_mac_node.c:187-234 | an unmarked entry, if the map accepts it |
| NodeTableObject.NodeTable.GetTxPower | src/dect_mac_node.c:71-107 | marks or creates, and returns the power |
| NodeTableObject.NodeTable.GetMcs | src/dect_mac_node.c:109-146 | marks or creates, and returns the MCS |
| NodeTableObject.NodeTable.GetCqi | src/dect_mac_node.c:148-185 | marks or creates, and returns the MCS plus one in 8 bits |
| NodeTableObject.NodeTable.AddPower | src/dect_mac_node.c:524-564 | 8-bit sum cut at the limit, entry marked |
| NodeTableObject.NodeTable.ReduceMcs | src/dect_mac_node.c:566-607 | difference cut to 0..mcs_max, with the code that ends the escalation |
| NodeTableObject.NodeTable.Optimize | src/dect_mac_node.c:317-522 | power and MCS chosen from header, RSSI and SNR |
| NodeTableObject.NodeTable.DeleteNode | src/dect_mac_node.c:236-261 | the entry, and only it, leaves table and iteration order; an unknown address is reported |
| NodeTableObject.NodeTable.CleanUnusedNodes | src/dect_mac_node.c:22-69 | the look-ahead iterator visits every entry exactly once, in order, and never one already deleted; the marked entries are left, unmarked |
| NodeTableObject.VisitNext | src/dect_mac_node.c:30-52 | the entry the iterator moved on to is still in the table |

## Left out

- RX_STOP and LINK_CONFIG: their callbacks do not end them for the queue. dect_mac_phy_rx_stop_cb gives no permit (src/dect_mac_phy_handler_cb.c:85-97), and the handler of LINK_CONFIG is not implemented (src/dect_mac_phy_handler.c:261-264), so its callback, which would, is never called. The model counts the permit as lost.
- RSSI: assumed to be reported once per operation, by dect_mac_phy_rssi_cb or as a failure by op_complete; each further report would give the permit again (src/dect_mac_phy_handler_cb.c:74-83).
- A transmission phase that missed its start time ends the operation: the modem's second report for it, with COMBINED_OP_FAILED, is ignored by op_complete and not a step of its own.
- Calls of the modem outside the queue other than the acknowledgements (starting and stopping the modem), and the default branch for an unknown function.
- Eventual dispatch: it does not hold. An exhausted node slab stops the queue (`ExhaustedSlabStopsTheQueue`), and so do a permit that was lost and a reservation whose acknowledgement missed its start time (`StoppedForGood`).
- Width of the retry counter (32 bits, reset at every dispatch) and of priorities and RSSI arithmetic (no overflow within the modem's ranges).
- PhyQueue: list nodes are sequence elements, the slabs are counters, and callbacks run between steps and not inside one.
- HarqPool: the heap is a map from block numbers to contents, and a null pointer is None; the TX_RX operations of transmit and retransmit are returned and not put into a PhyQueue, so a put that fails, which leaves the process occupied (src/dect_mac_harq.c:142), is not told apart.
- Delivery end to end when feedback is delayed: responses are not matched against the new-data bit.
- A bound over the life of a process that also serves requests: a request re-initialises the entry it shares with transmit (src/dect_mac_harq.c:16), so bounds are since the last transmit or re-initialisation.
- Buffer-status accounting (src/dect_mac_harq.c:218-316): the status is a parameter of Request.
- Handles between 0xA0 and 0xAF chosen by other users of TX_RX: they arm a HARQ timer, as `HarqTimerExact` says.
- Taken as preconditions: process numbers below CONFIG_HARQ_PROCESS_COUNT, data of at most 32767 bytes (16-bit cast at src/dect_mac_utils.c:53), an MCS of 0 to 4 in the node's entry and mcs_max at most 4 when a rate is selected, a power code of at most 13 there, and a receiver that is known or can be created.
- The receive configuration, start times, listen-before-talk and modem time.
- NodeTable: each operation is one uninterrupted step. The program's clean pass reads and clears the flags without node_mutex (src/dect_mac_node.c:29-68), and the lookups release it between a miss and the creation (src/dect_mac_node.c:94-98).
- Failure of k_malloc in create_node, and the internals of the hash map; the iteration order is the order of insertion, which the pass does not depend on.
- Logging, the LED and button code and main.c.
