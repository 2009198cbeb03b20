# Verified model of the Job scheduler's execution core

This project models the parts of the scheduler where correctness depends on
interleavings: the Instance and Task rows that many scheduler nodes, executors and
recovery scans change concurrently, the references between Jobs, executor groups and
triggered rounds, and the in-memory components that supply, bound and retry work.

The Dafny files fall into these groups.

- `Base`, `Collections`: shared values and set facts.
- `Rows`: every conditional UPDATE as a guard and an assignment on a row, and every
  decision taken from rows that were read.
- `ExecutorState`, `Protocol`, `ProtocolInvariant`, `ProtocolSteps`, `ProtocolTheorems`,
  `ProtocolClock`: the execution protocol as a transition system over rows, parent locks, dispatch calls on
  the wire, executor processes and stale reads. Each event is one statement, one commit or
  one mutex-protected section, so a run is any sequence of events. A commit whose
  confirmation is lost changes the rows and grants nothing.
- `Changes`, `JobStore`, `Registrar`, `StopController`, `Decisions`: the same operations as
  code on a mutable store, with other transactions committing between its statements.
- `References`, `ReferencesProofs`, `ReferencesTheorems`: Jobs, groups and rounds under
  statement-level READ COMMITTED interleavings.
- `DispatchSupply`, `DispatchSections`, `DispatchRuns`, `DispatchRuntime`: the dispatch
  runtime. Its sections are functions on its fields, runs are sequences of sections, and the
  class updates the fields in place.
- `ExecutorRuntime`, `NotifierState`, `NotifierRuntime`, `GroupCache`, `GroupClients`:
  executor admission, cancellation notifications, the group cache and its connection pool.
- `JobQueue`, `Retention`, `ResultQueue`, `Reporter`, `CheckQueue`, `StopQueue`: bounded queues
  and retained reports.
- `Sources`, `Scans`: cursor scans over sources whose rows come and go, and what they hand on.

Conventions. Times are integers; database times count microseconds, so that intervals in
seconds are multiples of a million. Where the source tests a zero time, zero is that value. Clocks, drawn delays, query outcomes, lock
contention and commit fates are parameters. An event whose guard does not hold leaves the
state unchanged, as the call then waits, is refused or matches no row. The last write of a
transaction and its commit are one event: nobody sees the write earlier, and the row locks
it needs are part of the event's guard. History values (which attempts were refunded,
closed, admitted or started; who was served; when an entry was read) record a run and never
decide anything.

Two results concern properties that hold only under a condition. Deleting a group is sound
because its Job references are checked before its active rounds; with the checks swapped
`SwappedOrderUnsound` gives a run that leaves an active round in a deleted group. A due retry
of a running parent before its deadline registers if and only if its 64-bit attempt number is
not exhausted (`DueRetryRegisters`), provided that every answer is saved at a time no earlier
than the registration it answers: then every used opportunity costs a retry interval, and the
deadline comes before the 32-bit count of them is full. A database clock that never goes back
gives this condition, because an attempt is sent, and so answered, only after the time of its
registration was read. It relates the two times of one attempt and nothing else, so
transactions may read their times and commit in any order. `SteppingBackSticks` gives a run in
which refusals are saved by a clock that is behind; there the last budgeted opportunity is due
and registers at no time.

## Model

| member | source | states |
|---|---|---|
| `ProtocolTheorems.ExecutionBound` | apps/job/internal/dispatch/dispatcher.go:188-245 | in every reachable state business code was started for a Task at most maxRetries + 1 times, and at most once per attempt |
| `ProtocolTheorems.SentOnce` | apps/job/internal/dispatch/registrar.go:183-260 | an attempt is permitted, then sent, then delivered, each at most once, and business code runs only for delivered attempts |
| `ProtocolTheorems.BusyThenRetry` | apps/job/internal/repository/job_task_repository.go:743-767 | a saved BUSY answer gives the opportunity back, and the next registration takes a new number at the same used count |
| `ProtocolTheorems.AttemptLedger` | apps/job/internal/repository/job_task_repository.go:650-686 | used attempts are numbered attempts minus refunds, running and retry-waiting Tasks stay within budget, refunds are for attempts nobody admitted, and each attempt is closed at most once |
| `ProtocolTheorems.RowsOnlyAdvance` | apps/job/internal/repository/job_task_repository.go:584-852 | along every run attempt numbers never decrease, finished rows are frozen, and an Instance keeps one end decision, its snapshot and its times |
| `ProtocolTheorems.StaleResultSound` | apps/job/internal/taskresult/saver.go:194-231 | the retry-or-fail choice made from an earlier read equals the choice the current row would give whenever the write applies |
| `ProtocolTheorems.StaleCheckSound` | apps/job/internal/instancecheck/checker.go:133-214 | a completion decided from an unlocked read, if it still applies, is what the current rows say |
| `ProtocolTheorems.ParentAgreesWithTask` | apps/job/internal/repository/job_instance_repository.go:447-475 | Succeeded implies the ordinary Task succeeded, execution_failed implies it failed, terminal Instances have no unfinished Task, and an end reason exists exactly after an end decision |
| `ProtocolTheorems.RunningParentHasLiveTask` | apps/job/internal/instancecheck/checker.go:185-198 | a running ordinary parent always has its Task and that Task is neither canceled nor waiting |
| `ProtocolTheorems.StopIsFinal` | apps/job/internal/instancestop/controller.go:137-206 | after a stop decision no attempt is registered, the reason stays, only the state it selects follows, and unfinished Tasks only get fewer |
| `ProtocolTheorems.BatchesAreBounded` | apps/job/internal/instancestop/controller.go:222-302 | over any interleaving, committed batches list no more Tasks in all than were unfinished |
| `ProtocolTheorems.EmptyListingFinishes` | apps/job/internal/repository/job_instance_repository.go:375-397 | an empty listing under the lock always permits the final transition to the state the reason selects |
| `ProtocolTheorems.StopConverges` | apps/job/internal/instancestop/controller.go:222-302 | from every stop decision a bounded number of batches reaches the terminal state the reason selects |
| `ProtocolSteps.StepKeeps` | apps/job/internal/dispatch/registrar.go:100-260 | every event of the protocol keeps the row, lock, message, ledger, executor and stale-read invariants and moves rows only forward |
| `Changes.OnceOnly` | apps/job/internal/dispatch/dispatcher.go:247-277 | a decided write that has taken effect never takes effect again, whatever is committed in between |
| `Changes.BatchShrinks` | apps/job/internal/repository/job_task_repository.go:491-530 | a batch over any set of Tasks finishes all it listed, a full page or everything that is left |
| `Changes.BatchesConverge` | apps/job/internal/instancestop/controller.go:222-302 | batches of any positive size reach the terminal state for any number of Tasks of any kind, at a full page each, whatever results are committed between batches and during them |
| `ProtocolClock.RunPaces` | apps/job/internal/repository/job_task_repository.go:650-797 | along every run in which answers are saved no earlier than the registrations they answer, the n-th used opportunity is registered no earlier than n - 1 retry intervals after the start, and the next one waits for n |
| `ProtocolClock.DueRetryRegisters` | apps/job/internal/dispatch/registrar.go:211-236 | on such a run, whatever the order of readings and commits, a due retry of a running parent before its deadline registers if and only if its attempt number is below the 64-bit limit, and at that limit nearly as many attempts were refunded |
| `ProtocolClock.SteppingBackSticks` | apps/job/internal/dispatch/registrar.go:228-236 | with answers saved by a clock that is behind, some reachable state has a due, budgeted retry before the deadline that registers at no time |
| `ProtocolClock.DueHappens` | apps/job/internal/dispatch/registrar.go:183-245 | a run that meets the condition in which a retry comes due |
| `JobStore.Store.Update` | apps/job/internal/repository/job_task_repository.go:723-797 | an independent conditional write: refused when malformed, otherwise its effect and its answer for each commit fate |
| `JobStore.Store.ListUnfinished` | apps/job/internal/repository/job_task_repository.go:491-506 | the smallest unfinished Task IDs of an Instance in order, at most a page |
| `JobStore.Store.CancelUnfinished` | apps/job/internal/repository/job_task_repository.go:508-530 | cancels exactly the listed unfinished Tasks of the Instance and counts them |
| `Registrar.StartOrdinary` | apps/job/internal/dispatch/registrar.go:100-168 | changes the rows exactly by the protocol's start commit and authorizes one send if and only if that commit was confirmed |
| `Registrar.RetryOrdinary` | apps/job/internal/dispatch/registrar.go:183-260 | the same for the next attempt of an original candidate, with a parent check only after a confirmed skip |
| `Registrar.SaveResponse` | apps/job/internal/dispatch/dispatcher.go:247-277 | at most three identical writes of one piece of evidence, of which at most one takes effect |
| `StopController.RequestStop` | apps/job/internal/instancestop/controller.go:137-206 | records a stop exactly when the protocol's stop commits and reports the stored facts, new only after a confirmed commit |
| `StopController.ProcessBatch` | apps/job/internal/instancestop/controller.go:222-302 | one lock, list, cancel-or-finish transaction with concurrent results in between, its effect and its answers |
| `StopController.Process` | apps/job/internal/instancestop/queue.go:251-278 | at most the configured number of batches, with other commits between and during them, each confirmed unfinished one having finished a full page |
| `Decisions.CheckInstance` | apps/job/internal/instancecheck/checker.go:133-264 | completes only as the facts read and stops only through the timeout step, both applied to the rows as they are at the write, with the answer for every verdict and commit fate |
| `Decisions.SaveReport` | apps/job/internal/taskresult/saver.go:105-177 | drops, ignores, keeps or writes a report from the rows read, the write guarded by the rows at the write |
| `Decisions.SettleBatch` | apps/job/internal/taskrecovery/settler.go:136-228 | processes a prefix in order, a failed write counting and an unusable item not: exactly the prefix is recorded, exactly its writes are issued, each once, and nothing else takes effect |
| `ReferencesTheorems.ReferencesHold` | apps/job/rpc/internal/logic/deleteexecutorgrouplogic.go:29-61 | in every run no undeleted Job and no active round refers to a deleted group, and a deleted Job has no active round |
| `ReferencesTheorems.SwappedOrderUnsound` | apps/job/rpc/internal/logic/deleteexecutorgrouplogic.go:33-56 | with the two checks swapped some run leaves an active round in a deleted group |
| `ReferencesTheorems.DiscardedJobsOverlapNever` | apps/job/internal/trigger/creator.go:152-163 | a Job that used the discard policy in every state of a run never has two active rounds |
| `ReferencesTheorems.OneRoundPerIdentity` | apps/job/internal/repository/job_instance_repository.go:579-609 | a request identity or a scheduled time of a Job has at most one round |
| `ReferencesTheorems.ReplaysAgree` | apps/job/internal/trigger/creator.go:346-351 | every confirmed reply to a manual request names the one round of that request, with equal parameters |
| `ReferencesTheorems.ReplayReturnsOriginal` | apps/job/internal/trigger/creator.go:126-201 | a round once created for a request is what every later reply to it names |
| `ReferencesTheorems.InsertNeverConflicts` | apps/job/internal/trigger/creator.go:173-188 | under the Job lock an unseen request's insertion cannot conflict, so the fallback lookup is never needed |
| `ReferencesTheorems.ProgressIncreases` | apps/job/internal/trigger/creator.go:224-305 | between two enables the due times settled by automatic decisions strictly increase and stay below the next one |
| `ReferencesProofs.StepKeeps` | apps/job/rpc/internal/logic/updatejoblogic.go:27-48 | every statement of every transaction keeps what group and Job holders have read and the references between rows |
| `DispatchRuns.SupplyBounds` | apps/job/internal/dispatch/runtime.go:515-710 | in every run the waiting count is pending plus reserved within capacity, conflicts plus registrations stay within capacity + concurrency - 1, owned keys are the disjoint union of waiting and taken candidates, and parents in conflict neither wait nor register |
| `DispatchRuns.OneRegistrationPerParent` | apps/job/internal/dispatch/runtime.go:582-669 | over every run, from taking a parent's gate until that registration itself finishes, nobody else's cleanup releases it and no other candidate of the parent is taken |
| `DispatchRuns.SecondFinishHarmless` | apps/job/internal/dispatch/runtime.go:563-580 | a worker's second, arbitrarily late cleanup of the same candidate changes nothing |
| `DispatchRuns.FairShare` | apps/job/internal/dispatch/runtime.go:582-634 | no parent is served a ninth time in a row while another parent's candidate is eligible |
| `DispatchSections.WakeTime` | apps/job/internal/dispatch/runtime.go:362-410 | the scanner waits without a timer exactly when everything is ready and the waiting set is full; otherwise its timer lies in the future and is no later than any cause |
| `DispatchSections.CleanupKeeps` | apps/job/internal/dispatch/runtime.go:563-580 | a worker's last section always frees exactly its own key and keeps the invariants |
| `DispatchSupply.RotationFair` | apps/job/internal/dispatch/runtime.go:540-557 | rotation appends a permutation of the accepted rows, keeps each parent's order, and gives a parent at most eight places per round |
| `DispatchSupply.AcceptedOwns` | apps/job/internal/dispatch/runtime.go:526-539 | accepted rows become owned once each and none has a parent in conflict |
| `DispatchRuntime.FindServed` | apps/job/internal/dispatch/runtime.go:590-608 | the search loop finds the first eligible candidate, or another parent's first one once the share is used up |
| `DispatchRuntime.RotateFrom` | apps/job/internal/dispatch/runtime.go:544-557 | the rotation loop terminates and yields the specified rounds |
| `DispatchRuntime.KeepUnexpired` | apps/job/internal/dispatch/runtime.go:697-710 | the expiry loop keeps exactly the deadlines still ahead and their minimum |
| `DispatchRuntime.Runtime.AcceptHint` | apps/job/internal/dispatch/runtime.go:215-239 | the in-place hint section is the section's function |
| `DispatchRuntime.Runtime.StopSupply` | apps/job/internal/dispatch/runtime.go:245-264 | stopping drops waiting candidates and their ownership only |
| `DispatchRuntime.Runtime.GrantPage` | apps/job/internal/dispatch/runtime.go:362-410 | one pass of the scanner's wait loop is the section's function, with the page or the wake time |
| `DispatchRuntime.Runtime.ChargeForPage` | apps/job/internal/dispatch/runtime.go:490-505 | charging a page is the section's function |
| `DispatchRuntime.Runtime.Admit` | apps/job/internal/dispatch/runtime.go:515-561 | admitting a page is the section's function |
| `DispatchRuntime.Runtime.TakeNext` | apps/job/internal/dispatch/runtime.go:582-634 | taking is the section's function; nothing is taken only when stopping, full of conflicts or without an eligible candidate |
| `DispatchRuntime.Runtime.RegistrationCandidate` | apps/job/internal/dispatch/runtime.go:155-163 | the candidate registering for a parent, if registration may still begin |
| `DispatchRuntime.Runtime.RegistrationFinished` | apps/job/internal/dispatch/runtime.go:655-669 | finishing a registration is the section's function, a no-op for any other candidate |
| `DispatchRuntime.Runtime.BlockParent` | apps/job/internal/dispatch/runtime.go:671-695 | a conflict is recorded once and the parent's waiting candidates are dropped with their ownership |
| `ExecutorRuntime.CallsNeedAdmission` | pkg/jobexecutor/runtime.go:166-204 | over every run an attempt is called no more often than it was admitted while startable |
| `ExecutorRuntime.CancelReaches` | pkg/jobexecutor/runtime.go:210-228 | after an Instance is cancelled, over every later run, its work that was not executing is never called and its executing work stays interrupted until it leaves, unless admitted anew |
| `ExecutorRuntime.Runtime.AcceptWork` | pkg/jobexecutor/runtime.go:166-204 | admission keeps active work equal to queued, received and executing work, and never sends on the closed queue |
| `ExecutorRuntime.Runtime.CancelInstance` | pkg/jobexecutor/runtime.go:210-228 | the loop signals exactly the Instance's activities |
| `ExecutorRuntime.Runtime.BeginWork` | pkg/jobexecutor/runtime.go:310-325 | a received attempt is dropped if cancelled, aborted or expired, and otherwise gets its context |
| `GroupCache.IndexesMirror` | apps/job/internal/groupcache/cache.go:138-191 | in every run the indexes mirror each other and every entry was read, undeleted, no earlier than the current snapshot's load |
| `GroupCache.NoResurrection` | apps/job/internal/groupcache/cache.go:293-323 | a group deleted before a completed refresh's load never reappears, whatever misses are in flight |
| `GroupCache.OneQueryPerKey` | apps/job/internal/groupcache/cache.go:256-291 | at most one source query per key is outstanding |
| `GroupClients.ClientsAreCurrent` | apps/job/rpc/internal/execution/group_clients.go:178-236 | from the observer's sweep until the next replacement every installed client's group is cached, and nothing is installed after Close |
| `GroupClients.InstallIsFresh` | apps/job/rpc/internal/execution/group_clients.go:191-221 | installation never overwrites a live connection |
| `GroupClients.ConnectionsHaveOneOwner` | apps/job/rpc/internal/execution/group_clients.go:123-270 | in every run a connection is in at most one of the pool, a caller, the observer and Close; it is closed at most once, and was closed if and only if nobody holds it |
| `GroupClients.EverythingClosedOnce` | apps/job/rpc/internal/execution/group_clients.go:223-270 | when nobody has anything left to close, every connection neither installed nor just built was closed exactly once |
| `GroupClients.NothingLeaks` | apps/job/rpc/internal/execution/group_clients.go:245-270 | after Close, once callers, observer and Close have returned, every connection ever created was closed exactly once |
| `NotifierState.TargetsAddUp` | apps/job/rpc/internal/execution/notification.go:308-380 | in every run the outstanding counts of all entries add up to the target count, within capacity |
| `NotifierState.ExpiredGainsNothing` | apps/job/rpc/internal/execution/notification.go:439-510 | over every run an expired entry stays expired and gains no target |
| `NotifierState.LateReturnHarmless` | apps/job/rpc/internal/execution/notification.go:512-519 | a returning query or send never removes another entry, such as a newer one of the same Instance |
| `NotifierState.GivenUpInRun` | apps/job/rpc/internal/execution/notification.go:512-519 | an entry is released once and never registered again |
| `NotifierRuntime.Runtime.AcceptHint` | apps/job/rpc/internal/execution/notification.go:152-180 | a hint merges with an equal retained notice, is admitted within capacity, or is refused |
| `NotifierRuntime.Runtime.EndReading` | apps/job/rpc/internal/execution/notification.go:333-343 | ending an enumeration is the section's function |
| `NotifierRuntime.Runtime.EndSending` | apps/job/rpc/internal/execution/notification.go:361-380 | capacity is given back when a send has returned |
| `NotifierRuntime.Runtime.Housekeep` | apps/job/rpc/internal/execution/notification.go:439-510 | the three housekeeping loops mark, sweep and release as specified |
| `JobQueue.Queue.Offer` | apps/job/rpc/internal/scheduler/queue.go:37-55 | an accepted hint is queued or marked for requeue, and the window holds each waiting ID once |
| `JobQueue.Queue.Push` | apps/job/rpc/internal/scheduler/queue.go:57-61 | appends to the ring window without overwriting, given a free slot |
| `JobQueue.Queue.Take` | apps/job/rpc/internal/scheduler/queue.go:67-81 | the oldest queued ID goes to one worker |
| `JobQueue.Queue.Complete` | apps/job/rpc/internal/scheduler/queue.go:86-99 | a finished ID is requeued if it was hinted meanwhile, and forgotten otherwise |
| `JobQueue.WindowFits` | apps/job/rpc/internal/scheduler/queue.go:37-99 | the window is no longer than the retained IDs, and shorter while one is processed |
| `Retention.NothingRetained` | apps/job/internal/taskresult/queue.go:313-339 | when nothing is retained, exactly the admitted reports have left |
| `Retention.Least` | apps/job/internal/taskresult/queue.go:386-403 | what is popped is least by due time and then admission order |
| `ResultQueue.Queue.Accept` | apps/job/internal/taskresult/queue.go:130-147 | admission, fullness and unavailability, with conservation of reports |
| `ResultQueue.Queue.Take` | apps/job/internal/taskresult/queue.go:266-299 | takes the least due entry; a worker leaves only when cancelled or when a stopping queue retains nothing |
| `ResultQueue.Queue.SaveReturned` | apps/job/internal/taskresult/queue.go:218-264 | a nil save releases the report, any other outcome keeps it |
| `ResultQueue.Queue.Finish` | apps/job/internal/taskresult/queue.go:313-339 | a drain succeeds exactly when nothing is retained, and then every admitted report was saved |
| `Reporter.Reporter.Submit` | pkg/jobexecutor/reporter.go:138-178 | submission within capacity, refusal, or waiting |
| `Reporter.Reporter.Take` | pkg/jobexecutor/reporter.go:260-293 | takes the least due entry, which has calls left |
| `Reporter.Reporter.Call` | pkg/jobexecutor/reporter.go:215-240 | every call is counted and none exceeds seven |
| `Reporter.Reporter.CallReturned` | pkg/jobexecutor/reporter.go:240-258 | acknowledged, refused and exhausted reports leave, others are retried or abandoned |
| `Reporter.Reporter.Finish` | pkg/jobexecutor/reporter.go:295-308 | submitted reports are acknowledged, discarded or discarded at shutdown, and none had more than seven calls |
| `CheckQueue.HintNotLost` | apps/job/internal/instancecheck/queue.go:121-221 | over every run an accepted hint or recovery hint leaves a check owed, at the time it then had, until one begins, a check ends terminally, or the run is cancelled |
| `CheckQueue.DueNeverLater` | apps/job/internal/instancecheck/queue.go:205-221 | over every run an owed check keeps its time until it is settled, through merged hints and the end of a check in progress |
| `CheckQueue.Queue.AcceptHint` | apps/job/internal/instancecheck/queue.go:121-144 | the in-place hint section is the section's function |
| `CheckQueue.Queue.AcceptRecovery` | apps/job/internal/instancecheck/queue.go:170-203 | one pass of the recovery wait is the section's function |
| `CheckQueue.Queue.TakeDue` | apps/job/internal/instancecheck/queue.go:312-350 | takes the first elapsed entry in list order, or reports the earliest time to wait for |
| `CheckQueue.Queue.CompleteCheck` | apps/job/internal/instancecheck/queue.go:377-394 | completing a check is the section's function |
| `StopQueue.Queue.Hint` | apps/job/internal/instancestop/queue.go:110-135 | hints of one Instance share a position within capacity |
| `StopQueue.Queue.Complete` | apps/job/internal/instancestop/queue.go:292-305 | unfinished work keeps its slot and moves to the tail, everything else frees it |
| `Sources.List` | apps/job/internal/repository/job_instance_repository.go:311-354 | a page is the first rows after the cursor and within the bound, in order |
| `Sources.HandOnOne` | apps/job/internal/instancecheck/recovery.go:138-150 | handing on the next listed row keeps that no row is handed on twice and none that was there at every query is missing up to the cursor |
| `Sources.ShortPageEnds` | apps/job/internal/taskrecovery/runtime.go:249-255 | a short page, once handed on, ends the traversal with nothing missing that was there at every query |
| `Sources.TopEnds` | apps/job/internal/instancestop/recovery.go:129-132 | so does a page that ends in the upper ID |
| `Sources.UnchangedSource` | apps/job/internal/instancestop/recovery.go:92-134 | over a source that does not change a traversal hands on every row exactly once |
| `Scans.HandOn` | apps/job/internal/instancestop/recovery.go:120-128 | the cursor moves over a row only after that row was accepted; the pass ends at the first refused or failed answer, and goes through the whole page if there is none |
| `Scans.SettlePage` | apps/job/internal/taskrecovery/runtime.go:228-248 | the cursor follows exactly what each batch has processed; only a failed answer, an unusable setting or a failed write ends it early |
| `Scans.ScanStopping` | apps/job/internal/instancestop/recovery.go:92-134 | however a pass is cut and whatever the source does between queries, the traversal stays resumable; completed, it has handed on, over all its passes, every row that was there at every query, and none twice |
| `Scans.ScanRunning` | apps/job/internal/instancecheck/recovery.go:112-152 | the same for running Instances started before one reading of the clock less the minimum age |
| `Scans.ScanUnbound` | apps/job/internal/taskrecovery/runtime.go:199-257 | the same for unbound attempts registered up to the cutoff, through the batches that settle them |
| `Scans.WaitingPage` | apps/job/internal/dispatch/runtime.go:314-453 | the same for waiting Instances, a page at a time |
| `Scans.RetryPage` | apps/job/internal/dispatch/runtime.go:314-488 | the same for due retries, a page at a time |
| `Scans.Traverse` | apps/job/internal/instancestop/recovery.go:62-134 | for every scan, said of the answers it is given: passes hand on only rows the source had, in order and none twice, and on completion every row the source had all the time; over an unchanging source with succeeding answers, more than four answers a row and five complete it |

## Left out

- GORM, SQL text, indexes, migrations and driver error classes: each statement is a guard and an assignment.
- JSON decoding, UTF-8, UUID, address and credential checks: they are validity flags or already decoded values.
- Cron grammar and search: a next trigger time is only required to be after the time it is computed from.
- Sharding stages (prepare, shard, post): skipped by the scheduler; Task sets are general only where cancellation batches are concerned.
- gRPC, etcd, Redis, leader election, the scheduler's Cron loop and the System domain: transport and plumbing, or easier properties.
- Goroutines, channels, timers, logging, metrics and jitter distributions: atomic sections, parameters and arbitrary drawn values.
- Shutdown budgets (Drain and Wait contexts): only their effect, a cancelled run, is modelled.
- Wrap-around of the 64-bit sequence, generation and token counters: they are unbounded here.
- Job fields that no decision reads (name, remark, audit times) and the operator of a manual trigger.
- Process-local creation permits of the trigger component: they bound concurrency and decide nothing else.
- Group cache, connection pool and the Job, group and trigger transactions: modelled as transition systems on values, since their properties are about interleavings; no class updates their fields in place.
- Changes.BatchesConverge: assumes that nobody registers attempts for the stopping Instance, which `ProtocolTheorems.StopIsFinal` proves of the protocol.
- Retention.Least: a linear search over the retained reports stands for the standard library's heap, whose sift operations are not modelled.
- Malformed pages (unordered rows, rows outside the bounds): a query returns a page of its source or fails, except that unusable IDs are checked.
- Stopping a component before it was started also cancels its context; where it then holds nothing this is not modelled.
