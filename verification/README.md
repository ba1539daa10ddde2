# Verification of the middleware's protocols

`dmw` is a ROS 2 style middleware over Fast DDS and `dclpy` is the Python client library on
top of it.  Most of both is thin wrapping.  This project models the parts that are not: the
native I/O dispatcher and its delivery jobs, the correlation of service responses with
requests, the reference-counted registries and leases, the shutdown barrier of executors and
futures, the discovery graph, the action goal registry, the parameter store, the availability
wait, timers, action naming and composition, event deltas and the diagnostic copier.

## How the models are built

- A protocol with threads is a state machine: a `State`, one `Event` for each section the
  code runs under its mutex (in the Python client: for each step of its owner and of a
  submitting thread), `Enabled`, and
  `Apply`.  `IsRun(states, events)` is any interleaving of enabled events from construction,
  and the main theorems hold for every run.
- DDS calls, job bodies, user code and clocks are arbitrary: their results are arguments of
  the events, and a steady clock only has to be non-decreasing.
- Code that updates objects in place is also written as a class with the fields of the
  original, its loops and its linked structures.  A ghost field or function gives the state of
  the protocol the object is in, and each method's postcondition says which event it performs
  and what it returns, so every theorem about runs speaks about the objects.
- What has happened so far (tickets published, callbacks invoked, goals committed) is kept in
  history fields of the state that no step of the program reads; in `Correlation*.dfy` the
  network consults them to give every request a fresh identity.

| Files | Subject |
|---|---|
| `Dispatcher*.dfy` | the dispatcher: events, invariant, counters, histories, runs, and the class over arrays |
| `Delivery.dfy`, `DeliveryJob.dfy` | write, retry, discard, retry the discard, report |
| `Correlation*.dfy`, `ServiceClient.dfy` | four client tables and the operation table; a response that is lost |
| `TypeRegistry*.dfy`, `Registries.dfy` | types and topics of a context |
| `EntityLeases.dfy`, `EntityBackings.dfy`, `ContextChildren.dfy` | leases, deferred destruction, adoption |
| `FutureBarrier*.dfy`, `Executors.dfy` | futures, callbacks and STOPPED |
| `DiscoveryModel.dfy`, `DiscoveryRuns.dfy`, `DiscoveryGraphs.dfy`, `SubscriptionDrain.dfy` | the graph and its subscribers |
| `GoalModel.dfy`, `GoalRuns.dfy`, `GoalRegistry.dfy` | goals, reservations, expiry, result requests |
| `ParameterModel.dfy`, `ParameterRuns.dfy`, `ParameterStore.dfy` | parameters and their journal |
| `AvailabilityWait.dfy` | waiting for an action server |
| `Timers.dfy`, `GraphNames.dfy`, `ActionComposition.dfy`, `EventDeltas.dfy`, `Diagnostics.dfy` | smaller exact parts |
| `Common.dfy` | results, errors, sequence helpers |

## Where the code does not do what one might expect

- A response can be lost for good.  `_submit_request` puts an operation into `_unreconciled`
  (executors.py:225) before it sets `native_work` (line 231), and `_take_response` runs without the
  executor's lock: when its scan meets such an operation, or the set changes under it, it raises
  (client.py:131-132) with the sample already consumed.  If that was the early response to another
  request, that request waits for ever on an open client: `CorrelationLoss.LosingRun`,
  `LostResponseIsNeverDelivered`.  `CorrelationRuns.StagedExactlyWhenNoneIsHalfway` and
  `SoleResponseArrivesExactlyUnlessRaised` say that this is the only way.
- `add_local_endpoint` on a GUID that is already bound moves the endpoint to another node
  without moving the reference.  `DiscoveryRuns.AddLocalIsBalancedExactlyWhen` gives the exact
  condition under which the counts survive, `RebindingBreaksTheCounts` a run that loses them.
- A child adopted late, after admission was closed, is closed by its adopter.  When another
  thread closes it first, the adopter's `close` returns at once and `finish_shutdown` may pass
  it by while it is still closing: `ContextChildren.OvertakenChildIsMissed` is such a run.
  `ShutdownMissesNoChild` covers every other child, and `MissableExactlyWhenAdoptedLater` says
  that the children at risk are exactly those adopted after `finish_shutdown` took its list.
- A timer fires again at the same reading when the clock is at its maximum, or when the call was
  overdue by the whole 64-bit range, which takes a clock that was set to a negative time; and in
  no other case: `Timers.NeverTwiceAtOneReading`.  On such a clock the schedule can also leave its
  grid: `NextIsTheGridPoint` has the exact condition, `LongSkipsLeaveTheGrid` the inputs.
- At the clock maximum a goal whose deadline saturated is announced by `earliest_expiry` but
  not ready: `GoalRuns.ReadyExactlyAtTheDeadline` and `EndOfTimeIsNotReady`.
- In DDS mode a plain topic whose name ends in `_Request` or `_Reply` comes back as a service:
  `GraphNames.NamesRoundTripExactlyUnless`.
- The participant field of a composed action is the group key up to the first `|`.  It is the
  participant exactly when the binary participant key does not contain that byte:
  `ActionComposition.ParticipantsAreReported`, with an input in `BarCutsTheParticipant`.

## Model

| member | source | states |
|---|---|---|
| DispatcherInvariant.ListsShrink | dclpy/src/native_io.cpp:188-200 | Unlinking one queued slot leaves both ready lists disjoint, duplicate-free and made of exactly the remaining Queued slots. |
| DispatcherInvariant.RingsGrow | dclpy/src/native_io.cpp:203-206 | Appending a completed slot keeps every mailbox a list of distinct Completed slots of its own port. |
| DispatcherCounts.RoomIsFree | dclpy/src/native_io.cpp:107-130 | Whenever `used_` is below 256 a Free slot exists, so the accounting failure at the end of `reserve` is unreachable. |
| DispatcherCounts.RingHasRoom | dclpy/src/native_io.cpp:294-300 | Before any append at least one of the 256 ring entries is unused: no ring overflows. |
| DispatcherCounts.LiveIsReleasable | dclpy/src/native_io.cpp:211-216 | Releasing a live slot never takes any of the three counters below zero. |
| DispatcherCounts.MailboxIsOutstanding | dclpy/src/native_io.cpp:88-90 | A mailbox never holds more entries than its port has outstanding tickets, so `retire_route` cannot find notifications left behind. |
| DispatcherCounts.CountsKept | dclpy/src/native_io.cpp:124-128 | Every step keeps `used_`, `ordinary_used_` and each `outstanding_` equal to the true number of slots, with at most 224 ordinary ones. |
| DispatcherRuns.StepKeepsInvariant | dclpy/src/native_io.cpp:83-328 | Each critical section, in any state satisfying it, re-establishes the whole invariant: lists, rings, worker, counters, histories. |
| DispatcherRuns.RunKeepsInvariant | dclpy/src/native_io.cpp:83-328 | The invariant holds in every state of every interleaving. |
| DispatcherRuns.ExactlyOnePlace | dclpy/src/native_io.cpp:161-328 | Every enqueued ticket is in exactly one of: control list, user list, delayed, in the worker's hands, between the two locks, in its mailbox, acknowledged. |
| DispatcherRuns.PublishedOnce | dclpy/src/native_io.cpp:179-209 | A ticket is published at most once in a run, and after that (in particular after `cancel_queued` returned true) it is never started, cancelled or published. |
| DispatcherRuns.FreedOnce | dclpy/src/native_io.cpp:211-221 | A ticket gives its slot back at most once in a run. |
| DispatcherRuns.AcknowledgedInOrder | dclpy/src/native_io.cpp:305-328 | Acknowledged tickets are a prefix of the published ones, which are distinct and all belong to that port. |
| DispatcherRuns.ReadyListsAreFifo | dclpy/src/native_io.cpp:139-150 | While `a` is ahead of `b` in a ready list no step starts `b`, unless `a` was started or one of them cancelled first. |
| DispatcherRuns.ExitLeavesNoWork | dclpy/src/native_io.cpp:260 | When the worker may return, nothing is queued, delayed or running and every completion is in its mailbox. |
| DispatcherRuns.ShutdownIsFinal | dclpy/src/native_io.cpp:334-343 | After a successful `shutdown` no run ever has a live ticket or an open route again. |
| DispatcherRuns.ControlHeadroom | dclpy/src/native_io.cpp:107-108 | When all 256 slots are taken at least 32 are control transactions: ordinary work cannot exhaust the reserve. |
| NativeIo.CompletionPort.constructor | dclpy/src/native_io.hpp:71-87 | A new port has an empty mailbox, no outstanding ticket, and accepts work. |
| NativeIo.CompletionPort.Append | dclpy/src/native_io.cpp:204-206 | The ring buffer with wrap-around holds the old entries followed by the new one. |
| NativeIo.CompletionPort.Advance | dclpy/src/native_io.cpp:324-325 | The ring buffer holds the old entries without the oldest. |
| NativeIo.NativeIoDispatcher.constructor | dclpy/src/native_io.hpp:113-140 | A new dispatcher is in the initial state of the model. |
| NativeIo.NativeIoDispatcher.OpenRoute | dclpy/src/native_io.cpp:68-74 | Refuses when stopping or out of identities and changes nothing; else adds one fresh, empty, accepting route under a new identity. |
| NativeIo.NativeIoDispatcher.StopRoute | dclpy/src/native_io.cpp:77-81 | Refuses foreign routes; else only this route stops accepting. |
| NativeIo.NativeIoDispatcher.RetireRoute | dclpy/src/native_io.cpp:83-97 | Busy exactly while the route owns a live slot; otherwise the route is gone, and the second Busy branch is never taken. |
| NativeIo.NativeIoDispatcher.Push | dclpy/src/native_io.cpp:139-144 | In the index-linked array the list becomes `list + [index]`; the other list is untouched. |
| NativeIo.NativeIoDispatcher.Pop | dclpy/src/native_io.cpp:145-150 | Returns the head and leaves a chain of the tail. |
| NativeIo.NativeIoDispatcher.Unlink | dclpy/src/native_io.cpp:190-200 | The search loop finds the slot (its failure branch is unreachable) and the chain loses exactly that index, head, middle or tail. |
| NativeIo.NativeIoDispatcher.Reserve | dclpy/src/native_io.cpp:99-131 | Refuses with the first applicable error and changes nothing; else issues a fresh ticket in the first Free slot and counts it. |
| NativeIo.NativeIoDispatcher.FindFree | dclpy/src/native_io.cpp:111-130 | The loop stops at the first Free slot and never falls through. |
| NativeIo.NativeIoDispatcher.Locate | dclpy/src/native_io.cpp:133-137 | Finds the live slot of a ticket, or reports NotFound exactly when there is none. |
| NativeIo.NativeIoDispatcher.Install | dclpy/src/native_io.cpp:152-159 | Gives a Reserved slot its job once; every other case is an error without effect. |
| NativeIo.NativeIoDispatcher.EnqueuePrepared | dclpy/src/native_io.cpp:161-172 | Queues a prepared slot at the end of the list its priority selects; every other case is an error without effect. |
| NativeIo.NativeIoDispatcher.CancelQueued | dclpy/src/native_io.cpp:179-209 | True exactly for a Queued ticket; then it leaves its list and is published as skipped, otherwise nothing changes. |
| NativeIo.NativeIoDispatcher.ReleaseSlot | dclpy/src/native_io.cpp:211-221 | The slot is Free again and all three counters drop by what it used. |
| NativeIo.NativeIoDispatcher.Abandon | dclpy/src/native_io.cpp:223-232 | Frees a Reserved ticket; NotFound or Busy without effect otherwise. |
| NativeIo.NativeIoDispatcher.PromoteDue | dclpy/src/native_io.cpp:240-251 | Every due slot joins its list in index order, and the result is the least remaining due time. |
| NativeIo.NativeIoDispatcher.Schedule | dclpy/src/native_io.cpp:239-267 | Takes the head of the control list, else of the user list, else quits only when stopping with nothing delayed, else sleeps until the earliest retry. |
| NativeIo.NativeIoDispatcher.Turn | dclpy/src/native_io.cpp:268-301 | One turn performs exactly the events that the job's answers call for: retry, park for cleanup, or complete and then append under the second lock. |
| NativeIo.NativeIoDispatcher.AppendCompletion | dclpy/src/native_io.cpp:293-301 | Publishes the slot marked Completed earlier although other threads ran in between. |
| NativeIo.NativeIoDispatcher.Peek | dclpy/src/native_io.cpp:305-313 | Returns ticket and record of the oldest completion of this port, and changes nothing. |
| NativeIo.NativeIoDispatcher.Acknowledge | dclpy/src/native_io.cpp:315-328 | Only the ticket at the mailbox head is accepted; it leaves the ring and frees its slot. |
| NativeIo.NativeIoDispatcher.Outstanding | dclpy/src/native_io.cpp:329-333 | Returns the true number of live slots of the route. |
| NativeIo.NativeIoDispatcher.Shutdown | dclpy/src/native_io.cpp:334-343 | Busy exactly while a slot is live or a route open; else admission stops. |
| Delivery.DeliveryOutcome | dclpy/src/service_io.hpp:69-95 | From any point of a delivery: at most three writes, no write after a discard, a failed write ends with that last write's failure unless `cleanup_failed`, and it ends only settled or hard-failed. |
| Delivery.AnyDelivery | dclpy/src/action_io.hpp:132-185 | The same for every delivery from its start and every sequence of DDS answers, for responses and for plain discards. |
| Delivery.BusyKeepsTrying | dclpy/src/service_io.hpp:89-95 | As long as the discard answers Busy the delivery never completes, and every call it makes is a further discard, at least one a turn. |
| Delivery.DiscardCompletes | dclpy/src/service_io.hpp:77-87 | The exact combinations of discard answers that end a delivery in one turn. |
| Delivery.TurnInDispatcher | dclpy/src/native_io.cpp:268-301 | A turn of the job and a turn of the dispatcher's worker agree: append when done, retry when counted, park when cleanup is pending, same final record. |
| DeliveryJobs.DeliveryJob.Run | dclpy/src/service_io.hpp:69-76 | Clears the pending flag, writes or discards, and reports the remembered failure after a settled discard. |
| DeliveryJobs.DeliveryJob.AfterFailedDelivery | dclpy/src/service_io.hpp:83-87 | Remembers the first failure only, switches to discarding, and discards. |
| DeliveryJobs.DeliveryJob.DiscardRequest | dclpy/src/service_io.hpp:89-95 | NotFound counts as done; Busy sets the pending flag; every other error marks the cleanup failed. |
| DeliveryJobs.ReservationSurvives | dclpy/src/service_io.hpp:104-114 | No step of the dispatcher other than enqueueing or abandoning it touches a prepared reservation. |
| DeliveryJobs.RequestWork.Respond | dclpy/src/service_io.hpp:134-141 | Enqueues the reserved ticket once as a response; otherwise an error without effect. |
| DeliveryJobs.RequestWork.SubmitDiscard | dclpy/src/service_io.hpp:156-163 | Enqueues the reserved ticket once as a discard; a second call has no effect. |
| DeliveryJobs.RequestWork.FinishTask | dclpy/src/service_io.hpp:146-154 | An untaken request gives its ticket back, a taken unanswered one is discarded, a submitted one is left alone; a second call finds the same facts and does nothing. |
| CorrelationInvariant.EntombedFacts | dclpy/dclpy/client.py:66-74 | Tombstones stay ordered by expiry, duplicate-free and at most 4096; the identity is buried and nothing expired is kept. |
| CorrelationInvariant.StepKeepsInvariant | dclpy/dclpy/client.py:66-159 | Every step of client, executor, sender and network keeps the tables consistent with each other and with the futures. |
| CorrelationInvariant.RefusalLeavesNoTrace | dclpy/dclpy/executors.py:235-238 | A submission that fails, before or after its native work was built, undoes its entries: only the number is used up and the future has failed. |
| CorrelationRuns.RunKeepsInvariant | dclpy/dclpy/executors.py:213-239 | The invariant holds in every state of every interleaving. |
| CorrelationRuns.AnsweredRequestHasItsResponse | dclpy/dclpy/client.py:87-113 | On an open client an uncancelled, drained request has exactly the first response delivered under its identity, in whichever order the two happened, unless the reception of that response raised. |
| CorrelationRuns.EarlyResponseIsStaged | dclpy/dclpy/client.py:133-144 | A first response that comes before its send completion waits in the early table with its operation among the candidates, unless its reception raised. |
| CorrelationRuns.FirstResponseIsRecorded | dclpy/dclpy/client.py:115-144 | Unless its reception raised, the first response delivered under an identity is the one on record from then on. |
| CorrelationRuns.SoleResponseArrivesExactlyUnlessRaised | dclpy/dclpy/client.py:115-144 | A drained, uncancelled request that was answered once on an open client has that response if and only if its reception did not raise, and is still pending otherwise. |
| CorrelationRuns.StagedExactlyWhenNoneIsHalfway | dclpy/dclpy/client.py:131-144 | In every reachable state the first response to a live, undrained request is staged if and only if no operation of the client has entered the tables without native work and the early table has room. |
| CorrelationLoss.WaitsForEver | dclpy/dclpy/executors.py:279-304 | Along any run a drained request that waits is reached by nothing but a response to its own identity and cancellation. |
| CorrelationLoss.LosingRun | dclpy/dclpy/executors.py:222-234 | A run from construction that drops a response between the two halves of another submission and leaves its uncancelled request pending on an open client. |
| CorrelationLoss.LostResponseIsNeverDelivered | dclpy/dclpy/client.py:131-132 | However that run goes on, the request stays pending until it is cancelled or a second response to it comes. |
| CorrelationRuns.NobodyElsesResponse | dclpy/dclpy/client.py:115-144 | Whoever has a result has the response to its own identity, and no other operation was sent under that identity. |
| CorrelationRuns.TablesAgree | dclpy/dclpy/client.py:66-153 | Pending, early and tombstone keys are disjoint, candidates are non-empty subsets of unreconciled, unreconciled and pending operations are in the operation table, both staging limits hold. |
| CorrelationRuns.RunKeepsFailures | dclpy/dclpy/executors.py:296-304 | On an open, running client a request fails only when its own send failed or was refused. |
| CorrelationRuns.SettledOnce | dclpy/dclpy/executors.py:279-304 | A future that has an outcome keeps it for the rest of the run. |
| CorrelationRuns.OrdersAgree | dclpy/dclpy/client.py:87-144 | For a live request, draining the completion and receiving the response lead to the same state in either order if and only if no submission is halfway; with the drain first the response is always delivered. |
| ServiceClients.ServiceClient.Entomb | dclpy/dclpy/client.py:66-74 | Purges expired entries from the front, keeps an existing entry, drops the oldest at capacity. |
| ServiceClients.ServiceClient.RetireCandidate | dclpy/dclpy/client.py:76-85 | The operation leaves unreconciled and every candidate set; entries left without candidates are dropped, all others keep their response. |
| ServiceClients.ServiceClient.SendCommitted | dclpy/dclpy/client.py:87-113 | All five tables after a send completion in each of its outcomes, and whether the operation is kept. |
| ServiceClients.ServiceClient.TakeResponse | dclpy/dclpy/client.py:115-144 | One received sample performs the model's reception step; it raises exactly when the scan is reached while an operation has no native work. |
| ServiceClients.ServiceClient.CheckTombstone | dclpy/dclpy/client.py:120-124 | An unexpired tombstone stops the sample, an expired one is deleted. |
| ServiceClients.ServiceClient.CancelOperation | dclpy/dclpy/client.py:146-153 | The identity leaves pending and early and is entombed; the operation leaves every candidate set. |
| ServiceClients.ServiceClient.Scan | dclpy/dclpy/client.py:131-132 | The loop over unreconciled yields the operations whose send started, or raises exactly when one has no native work. |
| ServiceClients.ServiceClient.Enter | dclpy/dclpy/executors.py:213-225 | Refused when stopping or unattached; else the next number enters the operation table and unreconciled, without native work. |
| ServiceClients.ServiceClient.Finish | dclpy/dclpy/executors.py:230-239 | The native work is set and enqueued, or the failure at either point undoes the entries. |
| ServiceClients.ServiceClient.CallAsync | dclpy/dclpy/client.py:42-48 | Undisturbed, a call is refused, or enqueues the next number, or leaves nothing but a failed future. |
| ServiceClients.ServiceClient.DrainCompletion | dclpy/dclpy/executors.py:355-378 | Commits the send and removes the operation unless it still waits. |
| ServiceClients.ServiceClient.CompleteRequest | dclpy/dclpy/executors.py:279-282 | Removes the operation and settles its future if still pending. |
| ServiceClients.ServiceClient.OperationTerminal | dclpy/dclpy/executors.py:270-277 | A settled future withdraws its operation, removing it once reconciled. |
| ServiceClients.ServiceClient.CancelForClose | dclpy/dclpy/executors.py:296-304 | Withdraws the operation and fails its future if still pending. |
| TypeRegistryRuns.RunKeepsInvariant | dmw/src/impl/context_impl.cpp:393-620 | Phases, counts and handles stay consistent in every interleaving with arbitrary DDS outcomes. |
| TypeRegistryRuns.NoUnregisterUnderATopic | dmw/src/impl/context_impl.cpp:276-288 | While `unregister_type` is being called no DDS topic of that type may still exist. |
| TypeRegistryRuns.DeletedOnceAndUnused | dmw/src/impl/context_impl.cpp:535-580 | `delete_topic` is called at most once per created topic, and never while a handle to it lives. |
| TypeRegistryRuns.CountsAreExact | dmw/src/impl/context_impl.cpp:393-620 | Each count equals its live plus deliberately retained handles, and Active means exactly a positive count. |
| TypeRegistryRuns.LookupsSucceed | dmw/src/impl/context_impl.cpp:511-521 | The look-ups after an unlocked DDS call always find their entry, and no release meets a zero count. |
| TypeRegistryRuns.WaitersHaveAWaker | dmw/src/impl/context_impl.cpp:397-417 | Whenever an entry is Creating or Retiring some thread is committed to move it on and wake the waiters. |
| Registries.Context.AcquireType | dmw/src/impl/context_impl.cpp:393-418 | One pass of the loop: create, share, wait, or refuse with the right error, exactly as the phase says. |
| Registries.Context.RegisterReturned | dmw/src/impl/context_impl.cpp:420-450 | Active with one handle, erased, or Orphaned after the registration returned, failed or threw. |
| Registries.Context.AcquireTopic | dmw/src/impl/context_impl.cpp:459-489 | One pass of the topic loop, with the degraded and mismatch refusals. |
| Registries.Context.CreateReturned | dmw/src/impl/context_impl.cpp:491-529 | The topic becomes Active with one handle, is erased, or is Orphaned with its type retained. |
| Registries.Context.ReleaseTopic | dmw/src/impl/context_impl.cpp:535-550 | Only the last handle starts the deletion. |
| Registries.Context.DeleteReturned | dmw/src/impl/context_impl.cpp:552-580 | Erased when deleted; else Orphaned with the type handle kept for ever. |
| Registries.Context.ReleaseType | dmw/src/impl/context_impl.cpp:582-598 | Only the last handle starts the unregistration. |
| Registries.Context.UnregisterReturned | dmw/src/impl/context_impl.cpp:600-619 | Erased when unregistered, else Orphaned. |
| EntityLeases.LeasedIsAlive | dclpy/src/entity.hpp:207-217 | While any lease of any kind is held destruction has not started. |
| EntityLeases.DestroyedOnceBeforeClosed | dclpy/src/entity.hpp:207-223 | The resource is destroyed at most once, before Closed is visible, and the release underflow never terminates the process. |
| EntityLeases.DerivationSucceeds | dclpy/src/entity.hpp:188-194 | Deriving from a held Work lease never throws, in whatever state the entity is. |
| EntityLeases.ReadyIsNoticed | dclpy/src/entity.hpp:196-223 | A closing, unregistered, lease-free entity has either started destruction or a thread committed to `try_finalize`; with no thread left it is Closed. |
| EntityBackings.EntityBacking.Acquire | dclpy/src/entity.hpp:177-186 | A lease exactly when the context admits and the entity is Open; the resource is there. |
| EntityBackings.EntityBacking.DeriveWork | dclpy/src/entity.hpp:188-194 | A second Work lease from a first one, without an error path. |
| EntityBackings.EntityBacking.Release | dclpy/src/entity.hpp:196-205 | One lease less, and the caller is now committed to finalize. |
| EntityBackings.EntityBacking.SetRegistered | dclpy/src/entity.hpp:120-129 | The two refusals, or the new flag. |
| EntityBackings.EntityBacking.Close | dclpy/src/entity.hpp:136-146 | Open becomes Closing once. |
| EntityBackings.EntityBacking.StartDestroy | dclpy/src/entity.hpp:207-217 | The resource is taken exactly when closing, unregistered, lease-free and not yet taken. |
| EntityBackings.EntityBacking.FinishDestroy | dclpy/src/entity.hpp:217-222 | Closed only after the one destruction. |
| ContextChildren.ShutdownMissesNoChild | dclpy/src/context.hpp:76-97 | After shutdown every adopted child is Closed or gone, unless it was adopted after the list was taken and another thread closed it before its adopter. |
| ContextChildren.MissableExactlyWhenAdoptedLater | dclpy/src/context.hpp:33-97 | At any time after the list was taken, a child neither Closed nor gone can still be missed by some continuation if and only if it was adopted after the list was taken. |
| ContextChildren.MissingRun | dclpy/src/context.hpp:47-97 | For every such child, the continuation that misses it. |
| ContextChildren.OvertakenChildIsMissed | dclpy/src/context.hpp:47 | A concrete run from construction in which an overtaken child is still closing after shutdown. |
| ContextChildren.NoAdoptionAfterShutdown | dclpy/src/context.hpp:80 | No adoption can follow the final step. |
| ContextChildren.NativeContext.Adopt | dclpy/src/context.hpp:33-49 | Drops only expired children from the list, adds the new one, and asks for its close exactly when admission was closed. |
| ContextChildren.NativeContext.StopAdmission | dclpy/src/context.hpp:51-54 | Admission is closed and nothing else changes. |
| FutureBarrierRuns.RunKeepsInvariant | dclpy/dclpy/executors.py:386-444 | Reservations, queue, callbacks and shutdown walk stay consistent in every interleaving. |
| FutureBarrierRuns.StoppedSettlesEverything | dclpy/dclpy/executors.py:537-561 | When the executor is STOPPED every future it admitted is terminal after exactly one terminal transition. |
| FutureBarrierRuns.SettledAtMostOnce | dclpy/dclpy/future.py:70-102 | At any time a future has made exactly one terminal transition if it is terminal and none if pending. |
| FutureBarrierRuns.StoppedInvokedEverything | dclpy/dclpy/executors.py:439-444 | When STOPPED every accepted callback that its owner did not remove has been invoked exactly once. |
| FutureBarrierRuns.NoCallbackIsLost | dclpy/dclpy/executors.py:402-407 | No run reaches a callback that a stopped executor refuses: its carrier still holds a reservation. |
| FutureBarrierRuns.InvokedAtMostOnce | dclpy/dclpy/future.py:128-161 | At any time a callback has been invoked once if it is marked so, and never otherwise. |
| FutureBarrierRuns.StoppedStaysQuiet | dclpy/dclpy/executors.py:391-407 | Once STOPPED no step queues a notification, takes a reservation, or changes a future or callback. |
| FutureBarrierRuns.StoppedForever | dclpy/dclpy/executors.py:537-561 | The same for the rest of every run. |
| Executors.Executor.Register | dclpy/dclpy/executors.py:386-389 | A future is admitted exactly while RUNNING. |
| Executors.Executor.BeginFinish | dclpy/dclpy/executors.py:391-395 | A reservation is granted exactly unless STOPPED. |
| Executors.Executor.CommitFinish | dclpy/dclpy/future.py:79-92 | The first to arrive wins, takes all callbacks and leaves none behind. |
| Executors.Executor.CommitAdd | dclpy/dclpy/future.py:134-139 | A callback is listed while pending, else it is queued by the adder. |
| Executors.Executor.Schedule | dclpy/dclpy/executors.py:402-407 | The stopped refusal is unreachable under a reservation; the callback joins the queue's end. |
| Executors.Executor.EndNotification | dclpy/dclpy/executors.py:397-400 | The producer count never goes below zero. |
| Executors.Executor.TakeNotification | dclpy/dclpy/executors.py:439-444 | Callbacks leave the queue in order. |
| Executors.Executor.RequestShutdown | dclpy/dclpy/executors.py:522-532 | RUNNING becomes STOPPING; STOPPED stays. |
| Executors.Executor.TestBarrier | dclpy/dclpy/executors.py:546-561 | STOPPED exactly when no producer, notification or operation is left, and then no admitted future is pending. |
| DiscoveryModel.ChangedMeansVisible | dmw/src/impl/discovery_graph.hpp:131-196 | A mutation reports Changed exactly when the view differs, node reference counts aside, and Invalid changes nothing. |
| DiscoveryRuns.StepMovesRevision | dmw/src/impl/discovery_graph.hpp:478-497 | The revision moves by at most one, exactly when the view changed; Unavailable is absorbing and frozen. |
| DiscoveryRuns.EqualRevisionsAgree | dmw/src/impl/discovery_graph.hpp:427-439 | Along every run the revision is monotone, and two healthy views with the same revision are the same view. |
| DiscoveryRuns.RemovedIsFinal | dmw/src/impl/discovery_graph.hpp:146-181 | A removed participant or endpoint never comes back. |
| DiscoveryRuns.AddLocalIsBalancedExactlyWhen | dmw/src/impl/discovery_graph.hpp:341-370 | The counts survive the call if and only if it is a no-op, a rejection, a fresh GUID, or a rebinding to the same node. |
| DiscoveryRuns.CountsAreExact | dmw/src/impl/discovery_graph.hpp:306-393 | While healthy each node's count is its facade plus its endpoints and every endpoint's node is present. |
| DiscoveryRuns.RebindingBreaksTheCounts | dmw/src/impl/discovery_graph.hpp:353-363 | A concrete run whose last call rebinds a GUID and breaks the count. |
| DiscoveryGraphs.Search | dmw/src/impl/discovery_graph.hpp:135-137 | The linear search finds the first entry with the key. |
| DiscoveryGraphs.RemoteNodesEqual | dmw/src/impl/discovery_graph.hpp:442-455 | The field-by-field loop decides equality of the two lists. |
| DiscoveryGraphs.DiscoveryGraph.Account | dmw/src/impl/discovery_graph.hpp:479-497 | Revision and health after a mutation; subscribers are told exactly when one of them moved. |
| DiscoveryGraphs.DiscoveryGraph.ApplyParticipant | dmw/src/impl/discovery_graph.hpp:131-161 | The whole new state of the graph; subscribers are told exactly when revision or health moved. |
| DiscoveryGraphs.DiscoveryGraph.ApplyEndpoint | dmw/src/impl/discovery_graph.hpp:162-196 | The whole new state, including a participant first seen through its endpoint; subscribers are told exactly when revision or health moved. |
| DiscoveryGraphs.DiscoveryGraph.AddLocalNode | dmw/src/impl/discovery_graph.hpp:306-316 | A fresh identity with one reference, or 0 exactly when unhealthy or out of identities; subscribers are told exactly when revision or health moved. |
| DiscoveryGraphs.DiscoveryGraph.ReleaseLocalNode | dmw/src/impl/discovery_graph.hpp:320-338 | One reference less, and the node goes with the last one; subscribers are told exactly when revision or health moved. |
| DiscoveryGraphs.DiscoveryGraph.AddLocalEndpoint | dmw/src/impl/discovery_graph.hpp:341-370 | The whole new state, with the reference only for a new GUID; subscribers are told exactly when revision or health moved. |
| DiscoveryGraphs.DiscoveryGraph.RemoveLocalEndpoint | dmw/src/impl/discovery_graph.hpp:372-393 | The endpoint goes and its node loses one reference; subscribers are told exactly when revision or health moved. |
| DiscoveryGraphs.DiscoveryGraph.ApplyRemoteNodes | dmw/src/impl/discovery_graph.hpp:401-425 | The participant's association list is replaced as a whole; subscribers are told exactly when revision or health moved. |
| DiscoveryGraphs.DiscoveryGraph.Service | dmw/src/impl/discovery_graph.hpp:232-288 | Complete exactly when both halves live (on one node, if asked for), Unknown exactly when nothing relevant lives, Unavailable exactly when unhealthy. |
| SubscriptionDrain.DrainedIsQuiet | dmw/src/impl/discovery_graph.hpp:498-512 | After a draining unsubscribe returned no callback runs and none can start. |
| SubscriptionDrain.CallbacksAreCounted | dmw/src/impl/discovery_graph.hpp:522-539 | A running callback is always counted in flight. |
| AvailabilityWait.NoLostWakeup | dmw/src/impl/action_impl.cpp:161-214 | A sleeper whose predicate is false sees a graph without a complete server, or a committed change still has its notification outstanding; a sleeper whose predicate is true, also by shutdown, is about to be woken. |
| AvailabilityWait.QuietSleepersAreRight | dmw/src/impl/action_impl.cpp:94-137 | With no notification outstanding every sleeper is right: no complete server, no interruption, no shutdown. |
| AvailabilityWait.AvailabilityWaitState.MaySleep | dmw/src/impl/action_impl.cpp:195-206 | Sleeps exactly when the context is up and neither revision nor interruption generation moved. |
| AvailabilityWait.AvailabilityWaitState.Interrupt | dmw/src/impl/availability_wait_state.hpp:43-50 | Both counters move, so every earlier token is interrupted. |
| GoalModel.GoalsMoveForward | dmw/src/impl/action_goal_registry.cpp:14-33 | Every transition goes up in rank, exactly the terminal states (and Unknown) have none, and Canceled is reached only from Canceling. |
| GoalModel.SaturatingAddIsMin | dmw/src/impl/deadline.hpp:11-21 | The deadline is the sum, or the clock maximum when that is later. |
| GoalRuns.RunKeepsInvariant | dmw/src/impl/action_goal_registry.cpp:37-269 | Balance, reservations, schedules and result requests stay consistent in every interleaving. |
| GoalRuns.NotificationsBalanceCommits | dmw/src/impl/action_goal_registry.cpp:57-89 | For every goal id, commits equal expiry notifications delivered plus queued plus one if it is still committed. |
| GoalRuns.TerminalIsFinal | dmw/src/impl/action_goal_registry.cpp:100-128 | A terminal goal keeps its state and time until it expires, and then exactly one notification for it appears. |
| GoalRuns.ReservationIsNeverLost | dmw/src/impl/action_impl.cpp:327-346 | Between reserve and commit no interleaving removes or commits the reservation: the ProtocolFault branch is unreachable. |
| GoalRuns.FailedWriteLeavesNoTrace | dmw/src/impl/action_impl.cpp:331-342 | After a failed write only the reservation is gone. |
| GoalRuns.RequestsWaitOnce | dmw/src/impl/action_goal_registry.cpp:172-180 | Each pending request id occurs once across all goals. |
| GoalRuns.ReadyMeansTakeYields | dmw/src/impl/action_goal_registry.cpp:221-256 | `expiry_ready` at a time holds exactly when `take_expired_goals` at that time returns something. |
| GoalRuns.ReadyExactlyAtTheDeadline | dmw/src/impl/action_goal_registry.cpp:248-269 | With an empty queue, ready means the earliest deadline has come, if and only if it is before the clock maximum, nothing is scheduled, or some unsaturated deadline fits. |
| GoalRuns.EndOfTimeIsNotReady | dmw/src/impl/action_goal_registry.cpp:264-266 | A run of three calls after which, at the clock maximum, the announced deadline has come and nothing is ready. |
| GoalRegistry.ActionGoalRegistry.constructor | dmw/src/impl/action_goal_registry.hpp:26-29 | A negative timeout counts as zero. |
| GoalRegistry.ActionGoalRegistry.Reserve | dmw/src/impl/action_goal_registry.cpp:37-44 | True exactly for an unknown id, which is then reserved. |
| GoalRegistry.ActionGoalRegistry.Conclude | dmw/src/impl/action_impl.cpp:339-352 | After a write the goal is live in the state its mode asks for; after a failed write it is gone; no third outcome. |
| GoalRegistry.ActionGoalRegistry.UpdateState | dmw/src/impl/action_goal_registry.cpp:100-128 | The transition and both states it reports, or an error without effect. |
| GoalRegistry.ActionGoalRegistry.Prune | dmw/src/impl/action_goal_registry.cpp:76-89 | Exactly the expired goals leave, each queued once. |
| GoalRegistry.ActionGoalRegistry.TakeExpired | dmw/src/impl/action_goal_registry.cpp:221-227 | Returns the queue followed by the newly expired goals and leaves it empty. |
| GoalRegistry.ActionGoalRegistry.ExpiryReady | dmw/src/impl/action_goal_registry.cpp:248-256 | The loop decides whether something is queued or expired. |
| GoalRegistry.ActionGoalRegistry.EarliestExpiry | dmw/src/impl/action_goal_registry.cpp:258-269 | The loop computes the least saturated deadline, or none. |
| GoalRegistry.ActionGoalRegistry.RegisterResultRequest | dmw/src/impl/action_goal_registry.cpp:160-181 | After pruning: unknown, terminal, already associated anywhere, or appended. |
| GoalRegistry.ActionGoalRegistry.RemoveResultRequest | dmw/src/impl/action_goal_registry.cpp:183-189 | The id waits nowhere afterwards and every other request keeps its place. |
| GoalRegistry.ActionGoalRegistry.TakePendingRequests | dmw/src/impl/action_goal_registry.cpp:191-202 | A live goal hands over its list and keeps none. |
| ParameterModel.AcceptableIsOnTheGrid | dmw/src/impl/parameter_store.cpp:80-89 | The wrapping unsigned test accepts exactly the values within bounds that are a whole number of steps above the lower bound. |
| ParameterRuns.JournalBalancesPresence | dmw/src/impl/parameter_store.cpp:298-361 | For every name, entries created minus entries deleted equal presence now minus presence at the last take. |
| ParameterRuns.JournalRebuildsEachName | dmw/src/impl/parameter_store.cpp:466-520 | Whatever happened to other names, one that was not undeclared since the last take has its current value, or is absent, in the replay of created then changed. |
| ParameterRuns.JournalRebuildsTheStore | dmw/src/impl/parameter_store.cpp:466-520 | Without an undeclare since the last take, replaying created then changed on the old values gives the store's values. |
| ParameterRuns.StoredValuesMeetTheirRanges | dmw/src/impl/parameter_store.cpp:225-257 | Every stored value meets its declared ranges in every run. |
| ParameterRuns.FixedTypeStays | dmw/src/impl/parameter_store.cpp:272-280 | No step changes a descriptor, a read-only value, or the type of a set fixed-type parameter. |
| ParameterRuns.FixedTypeStaysAlongRuns | dmw/src/impl/parameter_store.cpp:259-282 | A set fixed-type parameter keeps its type as long as it stays declared. |
| ParameterRuns.BatchKeeps | dmw/src/impl/parameter_store.cpp:479-496 | Assigning a validated batch one by one never meets a new validation error and keeps the invariant. |
| ParameterRuns.BatchesAreAtomic | dmw/src/impl/parameter_store.cpp:466-511 | A batch assigns all its values and nothing else, or changes nothing at all. |
| ParameterStore.ValidateName | dmw/src/impl/parameter_store.cpp:128-158 | The one-pass scan accepts exactly the dot-separated lists of tokens. |
| ParameterStore.ParsesAsInteger | dmw/src/impl/parameter_store.cpp:29-61 | Succeeds exactly for signed decimals that fit 64 bits, with the value they denote, without ever wrapping. |
| ParameterStore.TruncatedIsAPrefix | dmw/src/impl/parameter_store.cpp:115-124 | Cutting a longer name gives the prefix of that many tokens, ending before a dot. |
| ParameterStore.TruncateToDepth | dmw/src/impl/parameter_store.cpp:115-124 | The loop computes that prefix. |
| ParameterStore.ParameterStoreState.Declare | dmw/src/impl/parameter_store.cpp:298-347 | The first applicable error and no effect, or the effective value stored and journalled. |
| ParameterStore.ParameterStoreState.Undeclare | dmw/src/impl/parameter_store.cpp:349-361 | Removes the parameter and journals its last value. |
| ParameterStore.ParameterStoreState.ValidateShape | dmw/src/impl/parameter_store.cpp:284-296 | Succeeds exactly for valid names without duplicates; else reports the first entry's fault, InvalidName before InvalidArgument for a repeated name. |
| ParameterStore.ParameterStoreState.SetAtomically | dmw/src/impl/parameter_store.cpp:466-511 | Succeeds exactly for a valid batch, whose returned change lists are what the journal gained; else reports the first fault of the names, or the first assignment that is not admissible. |
| ParameterStore.ParameterStoreState.Prepare | dmw/src/impl/parameter_store.cpp:479-504 | The candidate store and lists built aside are those of assigning one by one. |
| ParameterStore.ParameterStoreState.TakeChanges | dmw/src/impl/parameter_store.cpp:513-520 | Hands over the journal and starts an empty one. |
| ParameterStore.ParameterStoreState.List | dmw/src/impl/parameter_store.cpp:408-453 | Exactly the matching names within the depth, and exactly the cuts of the deeper ones. |
| Timers.SaturatingAdd | dmw/src/timer.cpp:24-28 | The sum clamped to 64 bits. |
| Timers.SaturatingSub | dmw/src/timer.cpp:30-34 | The difference clamped to 64 bits. |
| Timers.SaturatingMul | dmw/src/timer.cpp:37-41 | The product clamped to 64 bits. |
| Timers.GridPointIsNext | dmw/src/timer.cpp:43-44 | The grid point is the one in the period after now. |
| Timers.NextIsTheGridPoint | dmw/src/timer.cpp:44-52 | For every due call the saturating computation gives the clamped grid point if and only if the skipped time fits in 64 bits, starts at zero or later, or the clock is at its maximum. |
| Timers.NeverTwiceAtOneReading | dmw/src/timer.cpp:234-242 | After a call the timer is due again at the same reading if and only if that reading is the clock maximum or the call was overdue by the whole range, for all 64-bit times. |
| Timers.NeverAgainAtThatReading | dmw/src/timer.cpp:222-250 | Outside those two cases a timer consumed at a reading is never due at that reading again, after any sequence of further readings. |
| Timers.TheScheduleNeverDrifts | dmw/src/timer.cpp:222-250 | After any sequence of readings the schedule never went back, and while every skipped time fits it is still on its original grid, or at the clock maximum. |
| Timers.NoDriftFromZero | dmw/src/timer.cpp:222-250 | For a schedule that starts no earlier than zero every skipped time fits, whatever the readings. |
| Timers.LongSkipsLeaveTheGrid | dmw/src/timer.cpp:48-51 | Concrete calls on a clock that was set to a negative time: one leaves the grid, one fires twice. |
| Timers.TimerState.Consume | dmw/src/timer.cpp:222-250 | Reports a call exactly when due, with expected, actual and elapsed time. |
| Timers.TimerState.Reset | dmw/src/timer.cpp:160-176 | Starts a new grid one period from now. |
| Timers.TimerState.ExchangePeriod | dmw/src/timer.cpp:178-200 | Only the period changes, and the old one is returned. |
| Timers.TimerState.TimeUntilNextCall | dmw/src/timer.cpp:202-220 | Zero exactly when due. |
| GraphNames.NormalizedMapsBack | dmw/src/impl/graph_names.hpp:58-88 | Whatever normalises maps back to the same DDS name: normalisation is injective. |
| GraphNames.NamesRoundTripExactlyUnless | dmw/src/impl/node_impl.cpp:87-102 | A mapped name normalises back if and only if it is not a DDS-mode topic that ends like a service. |
| GraphNames.DerivedClassifies | dmw/src/impl/graph_names.hpp:91-143 | Each derived endpoint name classifies as its action and role. |
| GraphNames.ClassificationDetermines | dmw/src/impl/graph_names.hpp:107-143 | Conversely a classification determines the name it came from. |
| GraphNames.ActionEndpointsRoundTrip | dmw/src/impl/graph_names.hpp:58-143 | In both modes every action endpoint built for the wire comes back as the same action and role. |
| ActionComposition.SlotsAreFilled | dmw/src/impl/graph_candidates.cpp:137-147 | A role of a group is filled exactly when some candidate has that key, role and kind. |
| ActionComposition.FoundServersAreReported | dmw/src/impl/graph_candidates.cpp:299-308 | Without QoS filter, a server found by the search is reported by the composition under its action, given injective keys. |
| ActionComposition.FoundPlainServersAreReported | dmw/src/impl/graph_candidates.cpp:299-308 | The same with no hypothesis on keys, for 12-byte participant keys and action names without a bar. |
| ActionComposition.PlainKeysAreInjective | dmw/src/impl/graph_candidates.cpp:142-143 | With 12-byte participant keys and action names without a bar, equal joined keys have equal parts. |
| ActionComposition.ParticipantsAreReported | dmw/src/impl/graph_candidates.cpp:142-154 | Every action endpoint is in a report, whose participant field is its participant if and only if the participant key has no bar. |
| ActionComposition.BarCutsTheParticipant | dmw/src/impl/graph_candidates.cpp:154 | A candidate whose 12-byte participant key has a bar, and the cut field of its report. |
| ActionComposition.ReportsAreExact | dmw/src/impl/graph_candidates.cpp:149-216 | A group has a server (client) exactly when all eight of its endpoints exist. |
| ActionComposition.CollectGroups | dmw/src/impl/graph_candidates.cpp:137-147 | The loop builds that grouping, keeping the first candidate of each slot. |
| ActionComposition.FindEndpoint | dmw/src/impl/graph_candidates.cpp:220-233 | The loop decides whether such an endpoint exists. |
| ActionComposition.HasActionServer | dmw/src/impl/graph_candidates.cpp:281-308 | The nested loops decide whether some participant and composition is complete. |
| EventDeltas.NoChangeIsLost | dmw/src/impl/event_impl.cpp:44-65 | For every event, changes taken plus the untaken difference equal the sum of all updates since its creation, and take yields nothing exactly when there was none since. |
| EventDeltas.KindsNeverClash | dmw/src/impl/event_parent_state.cpp:60-86 | The alternatives read by accumulate and difference always match. |
| EventDeltas.EventParentState.Update | dmw/src/impl/event_parent_state.cpp:404-427 | First update stored, later ones accumulated, exhaustion absorbing. |
| EventDeltas.EventParentState.Take | dmw/src/impl/event_impl.cpp:53-64 | Returns the difference to the cursor and moves it, or nothing. |
| Diagnostics.CopyIsWellFormed | dclpy/include/dclpy/diagnostic.hpp:5-32 | For every input the copy fits and is well-formed under section 4 of RFC 3629. |
| Diagnostics.WellFormedIsUnchanged | dclpy/include/dclpy/diagnostic.hpp:27-29 | Well-formed input that fits is copied unchanged. |
| Diagnostics.CopyingIsIdempotent | dclpy/include/dclpy/diagnostic.hpp:5-32 | Copying a copy changes nothing. |
| Diagnostics.TruncationIsMaximal | dclpy/include/dclpy/diagnostic.hpp:27 | Longer well-formed input is cut at a character boundary, and the next character would not have fitted. |
| Diagnostics.Measure | dclpy/include/dclpy/diagnostic.hpp:11-21 | Recognises exactly the well-formed characters, and reads no byte past the terminator. |
| Diagnostics.CopyDiagnostic | dclpy/include/dclpy/diagnostic.hpp:5-32 | The buffer holds the copy and its terminator, for every input. |

## Left out

- Fast DDS, pybind11 and Python object lifetimes: foreign code; their calls are arbitrary outcomes.
- Allocation failure, and the exceptions that only it can cause.
- Real time, thread scheduling and condition variables: every section under a mutex is one
  atomic step, and a sleeping thread may wake at any time.  Only `AvailabilityWait` says when a
  wake-up is owed.
- Dispatcher: the intrusive `next` field is an array of its own beside the slots; a port's
  identity, which is never reused, stands for the shared pointer; `notify` on wake conditions
  and the job's C++ lifetime are not modelled; `Turn` receives the job's answers as values, so
  events of other threads between `run` and `after_failed_delivery` appear in the runs, not in
  that method.
- NativeIo.NativeIoDispatcher.Turn: runs without interference from other threads, because a
  method is sequential; interleavings are covered by the events of `DispatcherRuns`.
- Delivery: sample type checks before `respond`, and `accept`, which differs only in the DDS call.
- Correlation: the two insertions of `_submit_request` are one step, as are its exception handler
  and each branch of a reception after the scan; identities are assumed fresh per request.
- Correlation: closing the client on an early-table overflow is the flag followed by the
  per-operation steps of `_cancel_entity_operations` and the clearing of the early table; the
  `ActionClient` tables, publications and the server branches of `_drain_completions` are not
  modelled.
- Registries: `topic_registry_degraded_` may be set at any time; teardown of retained topics
  when the context is destroyed is not modelled; a throwing DDS call is one of three outcomes.
- FutureBarrier: the weak reference to an executor that was destroyed early, bridges to asyncio
  futures, blocking waits, and which exception a settled future carries; the operation table
  enters only through the barrier test.
- DiscoveryRuns.CountsAreExact: for callers that release each facade once and never bind a GUID
  to a second node; `RebindingBreaksTheCounts` shows why the second is needed.
- Discovery: an endpoint record in an old view shares its participant record with the graph;
  here a view is a value.  `Service` finds a participant's association list by prefix in a
  table with one entry per prefix.
- AvailabilityWait: the claim is for `ActionClient`, whose predicate depends on the graph alone;
  the service client also depends on match counts whose changes wake nobody.  Revision and
  interruption generation are unbounded here, 64-bit in the code.  Metadata ingestion and the
  QoS part of the predicate are part of the arbitrary graph change.
- GoalModel: `select_cancel_goals` and `status_snapshot` (selection and sorting of a copy).
- Parameters: doubles are reals, so NaN, infinities and rounding are not modelled, nor the
  text of a double; override selection by node name; getters.
- Journal order between its three lists is lost in the code as well, so replay is claimed only
  for names that were not undeclared.
- Timers: wake callbacks, closing, and clock types; the clock is an argument.
- ActionComposition.FoundServersAreReported: without the QoS filter; for action names that contain
  `|` the joined group keys have to be injective, which `PlainKeysAreInjective` proves for all others.
- ActionComposition: endpoint identities and node names in the report, and its order.
- EventDeltas: counters are unbounded integers; the `pending` flag, which is cleared outside the
  parent's lock, and notification of waiters.
- `AsyncIOExecutor`, the action server's protocol lane, wait sets, QoS conversion, graph metadata
  transport, bindings and the interface generator: plumbing or I/O around the parts above.
