# VoxelSteward: a verified model of its protocols

VoxelSteward runs a bot under supervision: it connects to a server, watches for anything that should make it
stop, takes tasks from a queue, and tells its owner what happened. Its network, database and clock are behind
ports; what is difficult is the protocols in between, built from persisted state machines, leases,
compare-and-set and retry loops. This project models those protocols in Dafny and proves what they promise, over
every input and every interleaving.

How the model is laid out:

- `TaskQueue`, `TaskTable`: one task's life as pure transitions, and the table and service that keep it.
  `QueueRuns` and `QueueLife` let any number of queue services and placement executions share one table, with a
  crash possible at every await, and prove what every run keeps.
- `PlacementProtocol`, `BlockCoordinator`, `BlockDistance`: the order in which one placement may act, as an
  automaton over its trace, the coordinator that follows it, and the distance it asks about. The runs assume of an
  execution only that it follows the automaton.
- `Outbox`, `SqlOutbox`, `OutboxDispatcher`, `OutboxRuns`: the leased notification outbox in memory and in SQL,
  one dispatcher, and any number of dispatchers on one outbox.
- `StateStore`, `SafetyPolicy`, `Supervisor`: the coupled state machines, the policy over them, and the
  reconnecting supervisor.
- `WeekdayScheduler`, `ScheduledController`: windows of time, and the sessions run in them.
- `WorldObservation`: the bounded cache of observed blocks. `StatePersistence`: the upserts, and the subscriber
  that retries them. `Notifications`: what is told, and that it is told once. `DiscordWebhook`: the retry loop
  under a time budget. `FrameOwnership`, `MovementPort`, `MovementPlan`: tick leases, the movement step, and the
  straight line it follows.

Conventions. An object whose methods change its fields is a class; each method states its new state, mostly
through a function of the old one, and lemmas speak about those functions. An `await` is a place where a script
says what happens meanwhile and how the awaited call ends; the scripts are arbitrary. Ghost traces record sends,
claims, creations and closes. Times are integer milliseconds, coordinates and durations in `DiscordWebhook` are
reals, and a missing value is `None`.

Where the code falls short of what one would expect, the model keeps the code, and says exactly when the
expectation holds:

- With two attempts or more and a clock that repeats itself, a stale release can land on a later claim of the
  same task, because the compare-and-set key holds only status, phase and update time
  (`QueueLife.StaleReleaseLands`). Whatever the clocks do, attempts count claims if and only if a single attempt
  is allowed (`QueueLife.ClaimsCountedWhateverTheClocks`).
- The two outbox adapters differ on a record under delivery without a stored limit
  (`SqlOutbox.MarkFailedCanDiffer`, `SqlOutbox.MarkFailedAgreesExactly`); no run reaches such a record. The SQL
  adapter also reads the row again after its update, so it may report nothing of a record it has marked
  (`SqlOutbox.ReadAgainCanDiffer`); the results agree exactly if nobody has changed the status in between
  (`SqlOutbox.MarkFailedAgreesOnRuns`).
- A coordinator cancelled while it looks at the support still records that delivery starts; it then sends nothing
  (`BlockCoordinator.CancelledLookingAtTheSupport`). Every earlier disturbance prevents the record, and this one
  is the only one ignored (`BlockCoordinator.OnlyTheSupportLookIsIgnored`). With the default wait, which ends on
  an abort, it takes an observation that had already won its race with the timer.
- A state that stops the work while the block is being sent is reported as a cancellation by the caller if the send
  resolves (`BlockCoordinator.SafetyStopReportedAsCancelled`); nothing else is, that nobody has cancelled or closed
  (`BlockCoordinator.CancelledMeans`).
- A session whose start throws after its creation is never closed (`ScheduledController.ClosedExactlyIfStarted`,
  `ScheduledController.SessionAbandoned`).
  A start that comes in one reading with the stop of a live session is passed over exactly if recording that stop
  throws or the controller is closed while it stops; the scheduler counts the window as started all the same
  (`ScheduledController.ScheduledRuntimeController.EvaluateOnce`, `ScheduledController.StartDroppedWithItsStop`).
  The program's own session catches what recording an intent throws (src/runtime/session.ts:268-281), so either
  throw takes another implementation of the session interface.
- A stop request that arrives after an attempt has settled with an error is overridden as the reported reason if
  that error ends the run, or the wait before the next attempt throws (`Supervisor.OverriddenStop`); it stands
  exactly if the attempt may be repeated and the wait goes through (`Supervisor.StopStandsExactly`). If attaching
  listeners throws and nothing settles what was attached, it is left behind
  (`Supervisor.RuntimeSupervisor.Run`), and the first happening that settles it later, if there is one,
  disconnects the connection a second time (`Supervisor.RuntimeSupervisor.RunAndAfter`,
  `Supervisor.LeftoverShutsTwice`).
- A notification record persisted out of its turn, before one already touched, ends the order of the outbox:
  two records can then be under delivery at a time, and claims go backwards (`OutboxRuns.OutOfTurnTwoAtOnce`).
  It is the only way to lose it (`OutboxRuns.OutboxDrainsInOrder`, `OutboxRuns.OutOfTurnBreaksShape`).
- A persistence subscriber closed in the wait before a retry drops the event without a report
  (`StatePersistence.DroppedInItsWait`), and drops none otherwise
  (`StatePersistence.StatePersistenceSubscriber.PersistWithRetry`).
- A notification subscriber that is subscribed again to a store with a lower revision drops events whose ids it
  still remembers (`Notifications.SecondConnectingIsDropped`). Some event is at risk exactly if an id above that
  revision is remembered (`Notifications.NotificationSubscriber.DropsAfterResubscribing`); if none is, nothing is
  dropped whatever happens later (`Notifications.NotificationSubscriber.AcceptAll`).
- A webhook port configured with no attempts at all reports every message it does not refuse at once as sent
  (`DiscordWebhook.SentWithoutACall`); with one attempt or more, sent means a last call answered with success
  (`DiscordWebhook.DiscordWebhookNotificationPort.Send`).
- A movement step whose connection is reported lost before its frame is out has failed, and hands the frame over
  all the same: only an abort, a stop, the end of the frame stream or a transport that throws keeps it back
  (`MovementPort.BedrockMovementPort.Move`, `MovementPort.ArrivesExactly`).
- The same error recorded twice within one millisecond is told once (`Notifications.ToldByCause`,
  `Notifications.SecondErrorIsNotTold`).

Enqueueing is idempotent per task id, and a match of contents is asked only of typed instructions
(docs/task-queue.md:23, docs/task-queue.md:39). So an untyped instruction may be answered by another one of its id:
exactly if both are untyped (`TaskTable.InsertTwice`, `TaskTable.DifferingUntypedIsAccepted`).

## Model

| member | source | states |
|---|---|---|
| `QueueRuns.PlacedAtMostOnce` | src/application/block-operation/block-operation-coordinator.ts:264-297 | over every interleaving of services and executions, crashes included, place is called at most once per task, and only when the persisted row carries that very instruction, is past not_started and is not one recovery would hand out |
| `QueueRuns.NeverClaimedAgain` | src/domain/task-queue/task-queue.ts:232-308 | once place was called for a task, no continuation of the run claims it again |
| `QueueRuns.StartedForever` | src/domain/task-queue/task-queue.ts:232-249 | a task whose delivery has started stays past not_started and its claims stop growing |
| `QueueRuns.LandsOnlyOnPresent` | src/adapters/persistence/mysql-task-queue-repository.ts:179-198 | with a single attempt there is no ABA: a compare-and-set lands only if the row is exactly the one that was read |
| `QueueRuns.LandStep` | src/adapters/persistence/mysql-task-queue-repository.ts:214-236 | a landed write takes one row one legal step forward and leaves all others |
| `QueueRuns.RunKeepsInv` | src/application/task-queue/task-queue-service.ts:32-95 | the inductive invariant of all rows, pending writes, executions and place calls holds in every reachable state |
| `QueueRuns.DoneIsInTheRow` | src/application/block-operation/block-operation-coordinator.ts:486-498 | in every reachable state an execution that has recorded its end has it in its row: a placement reported completed is stored as completed, one reported failed as failed, one reported stopped as stopped |
| `QueueLife.AttemptsAreClaims` | src/domain/task-queue/task-queue.ts:219-317 | in every run with one attempt or with advancing times, attempts equals the claims made and is at most maxAttempts, queued leaves one over, and a life has at most 2 * maxAttempts + 2 changes |
| `QueueLife.ClaimsCountedWhateverTheClocks` | src/domain/task-queue/task-queue.ts:274-308 | without any assumption on clocks, attempts count claims if and only if a single attempt is allowed |
| `QueueLife.StaleReleaseLands` | src/adapters/persistence/mysql-task-queue-repository.ts:179-198 | a run in which a release computed from a first claim lands on the second |
| `TaskQueue.CreatedIsLegal` | src/domain/task-queue/task-queue.ts:203-217 | a created item has a legal shape, its whole life before it, and can be claimed |
| `TaskQueue.ClaimProgress` | src/domain/task-queue/task-queue.ts:274-284 | a claim succeeds exactly on what recovery calls claimable, uses up one attempt and shortens the life |
| `TaskQueue.ComputeProgress` | src/domain/task-queue/task-queue.ts:219-317 | every other command keeps attempts and instruction, never moves the phase back, shortens the life, and re-queues only what has attempts left and was not started |
| `TaskQueue.ComputeLeaves` | src/domain/task-queue/task-queue.ts:219-317 | by command and on the fields: which items a command is accepted for, and which status and phase it leaves; a finish leaves completed, failed or stopped as asked, a cancel cancelled, a release queued exactly while attempts are left and failed otherwise |
| `TaskQueue.TerminalIsAbsorbing` | src/domain/task-queue/task-queue.ts:16-25 | the items that accept no command are exactly the terminal ones |
| `TaskQueue.StartedNeverClaimable` | src/domain/task-queue/task-queue.ts:265-272 | no command makes a started delivery claimable |
| `TaskQueue.ValidMeans` | src/domain/task-queue/task-queue.ts:90-148 | which instructions are accepted, by their numbers: a placement stands on the block below it inside the world, with a single attempt and a reach of at most three; an instruction without details bears no reserved type |
| `TaskTable.TaskTable.Insert` | src/adapters/persistence/mysql-task-queue-repository.ts:83-112 | insert if absent, then read what is there by then; a different instruction under the same id is a conflict |
| `TaskTable.InsertTwice` | src/adapters/persistence/mysql-task-queue-repository.ts:83-112 | of two valid items of one id the first is kept; the second is answered with it exactly if the instructions agree or both are untyped, and refused otherwise |
| `TaskTable.EqualThoughDifferent` | src/domain/task-queue/task-queue.ts:150-160 | two different valid instructions count as equal exactly if both are untyped and of one id |
| `TaskTable.DifferingUntypedIsAccepted` | src/domain/task-queue/task-queue.ts:154-155 | an untyped item answered with another of its id |
| `TaskTable.TaskTable.ClaimNext` | src/adapters/persistence/mysql-task-queue-repository.ts:123-167 | a queued, unlocked row of an allowed type is claimed for which no other has a higher priority, nor the same and an earlier creation, nor both the same and a smaller id; nothing else changes |
| `TaskTable.FirstIsTaken` | src/adapters/persistence/mysql-task-queue-repository.ts:123-147 | selected is the row of the highest priority, of those the oldest, of those the one with the smallest id |
| `TaskTable.TaskTable.RecoverExpiredClaims` | src/adapters/persistence/mysql-task-queue-repository.ts:169-177 | expired claims lose their owner and nothing else: none becomes available again; a closed repository answers with an error |
| `TaskTable.TaskTable.Replace` | src/adapters/persistence/mysql-task-queue-repository.ts:179-236 | the write happens exactly if status, phase and update time are still as expected |
| `TaskTable.WrittenInFull` | src/adapters/persistence/mysql-task-queue-repository.ts:179-236 | a landed write leaves the item it was given; instruction and creation time are never rewritten and no other row is touched |
| `TaskTable.TaskQueueService.Dispatch` | src/application/task-queue/task-queue-service.ts:32-95 | read, compute, compare-and-set, with anything done by others in between: success means the row read was accepted by the command and its successor, with status and phase as the command leaves them, was written over an unmoved row; refused, moved, not found and closed are told apart |
| `PlacementProtocol.CompletedStory` | src/application/block-operation/block-operation-coordinator.ts:125-377 | a trace that ends completed is: target air, support solid, delivery recorded, place called and resolved, target dirt, verified recorded, finish attempted and recorded |
| `PlacementProtocol.AtMostOneOfEach` | src/application/block-operation/block-operation-coordinator.ts:125-377 | on every accepted trace at most one place call, never without a recorded delivery, and at most one finish |
| `BlockCoordinator.Coordinator.Execute` | src/application/block-operation/block-operation-coordinator.ts:75-377 | whatever the surroundings do: the start of the delivery is recorded, place is called, and the result is a completed one, each exactly if the script meets the conditions listed for it, and every result is the one its script decides; place is called only in the dimension of the target, no further from it than the reach; completed only after the whole story; every result has its end recorded or says that it has not; the port stopped and place called at most once, and stopped whatever happens if the result is a stop, a timeout or an error of the port or the end |
| `BlockCoordinator.RefusalMeans` | src/application/block-operation/block-operation-coordinator.ts:162-186 | an allowed start is refused as invalid_position, out_of_reach or unsupported_adapter exactly for its own cause, stated on the coordinates |
| `BlockCoordinator.BeyondReachIsAnswered` | src/application/block-operation/block-operation-coordinator.ts:169-175 | a target beyond the reach, in any coordinate, direction or dimension, is answered with out_of_reach, if that end can be recorded |
| `BlockDistance.AxesAreAlike` | src/domain/block-operation/validation.ts:116-119 | no axis and no direction counts more than another |
| `BlockDistance.AlongAnAxis` | src/domain/block-operation/validation.ts:116-119 | along one axis the distance is the absolute difference |
| `BlockDistance.RightAngle` | src/domain/block-operation/validation.ts:116-119 | two differences at a right angle count as the length that squares to their sum |
| `BlockDistance.LengthDecides` | src/domain/block-operation/validation.ts:116-119 | comparing squares decides as the straight length does |
| `BlockCoordinator.OnlyTheSupportLookIsIgnored` | src/application/block-operation/block-operation-coordinator.ts:211-297 | of all disturbances before the record only one during the look at the support leaves it standing; the send heeds that one, too |
| `BlockCoordinator.CancelledLookingAtTheSupport` | src/application/block-operation/block-operation-coordinator.ts:220-275 | an execution in which the delivery is recorded as started although it was cancelled, and nothing is sent |
| `BlockCoordinator.HopefulCompletes` | src/application/block-operation/block-operation-coordinator.ts:75-339 | for every valid instruction some surroundings let it complete |
| `BlockCoordinator.CancelledMeans` | src/application/block-operation/block-operation-coordinator.ts:297-305 | an execution reported as cancelled was cancelled or closed by somebody, unless its send resolved although the state had stopped the work meanwhile |
| `BlockCoordinator.SafetyStopReportedAsCancelled` | src/application/block-operation/block-operation-coordinator.ts:297-305 | for every valid instruction, surroundings in which nobody cancels, the state stops the work during the send, and the result is cancelled |
| `BlockCoordinator.Coordinator.Place` | src/application/block-operation/block-operation-coordinator.ts:277-297 | place is called only from a started delivery, undisturbed, and with the policy allowing it at that moment |
| `BlockCoordinator.Coordinator.Finalize` | src/application/block-operation/block-operation-coordinator.ts:486-498 | the end is recorded if and only if the queue commits it and the state store accepts it: the store does not hold this task under way, or its clock can be read and a completed task is running |
| `BlockCoordinator.Coordinator.PortFailure` | src/application/block-operation/block-operation-coordinator.ts:396-419 | a failed port call stops the port and ends the task as stopped exactly if it was cancelled, else as failed, under the cause that applies: a safety stop if the state stopped the work by then, a timeout, or the reason of the error |
| `BlockCoordinator.Coordinator.Cancel` | src/application/block-operation/block-operation-coordinator.ts:379-384 | aborts the active execution and stops the port once |
| `BlockCoordinator.Coordinator.Close` | src/application/block-operation/block-operation-coordinator.ts:386-394 | closes for good, aborting what is active |
| `BlockCoordinator.PreparesAndRunsInStore` | src/domain/state/state-store.ts:363-388 | the coordinator's two task commands succeed together exactly when the store's own dispatch does |
| `BlockCoordinator.EndsAlike` | src/application/block-operation/block-operation-coordinator.ts:486-498 | the command that ends the task in the store leaves it completed, failed or stopped as the queue is told |
| `Outbox.InMemoryOutbox.ClaimNext` | src/adapters/persistence/in-memory-notification-outbox-repository.ts:22-75 | the first open record by time and revision is claimed if it is due, under a new lease and with one more attempt within its limit, or failed at its limit; one under delivery whose lease ends after now is left as it is, and nothing is handed out; no other changes |
| `Outbox.ClaimStepTakes` | src/adapters/persistence/in-memory-notification-outbox-repository.ts:22-75 | what is first and due is handed out while attempts are left and failed when none are; nothing else is taken, and nothing before its time |
| `Outbox.LiveLeaseIsLeft` | src/adapters/persistence/in-memory-notification-outbox-repository.ts:42-48 | a claim touches nothing before its time: neither a pending record waiting for its next attempt nor one whose lease has not ended |
| `Outbox.InMemoryOutbox.MarkDelivered` | src/adapters/persistence/in-memory-notification-outbox-repository.ts:77-99 | marks exactly a record the worker holds |
| `Outbox.InMemoryOutbox.MarkFailed` | src/adapters/persistence/in-memory-notification-outbox-repository.ts:101-127 | a held record goes back to pending or to failed at its limit, and loses its lease |
| `Outbox.HeadStepKeepsShape` | src/adapters/persistence/in-memory-notification-outbox-repository.ts:22-75 | a step of the first open record keeps the shape: finished, then at most one started, then untouched |
| `Outbox.ShapeInOrder` | src/adapters/persistence/in-memory-notification-outbox-repository.ts:22-75 | listed in order, the outbox is a terminal prefix, at most one started record and untouched ones |
| `Outbox.EnqueueKeepsShape` | src/adapters/persistence/mysql-state-persistence-repository.ts:100-117 | a newly persisted record keeps the shape if and only if no touched record comes after it |
| `Outbox.HeadUnique` | src/adapters/persistence/in-memory-notification-outbox-repository.ts:30-48 | there is one first open record |
| `OutboxRuns.OutboxDrainsInOrder` | src/adapters/persistence/in-memory-notification-outbox-repository.ts:22-127 | from an all-pending start, under any interleaving of any workers and clocks in which records are persisted in their turn, the shape always holds, at most one record is delivering, and claims never go backwards in order |
| `OutboxRuns.OutOfTurnBreaksShape` | src/adapters/persistence/mysql-state-persistence-repository.ts:100-117 | persisting a record keeps the shape exactly if no touched record comes after it |
| `OutboxRuns.OutOfTurnTwoAtOnce` | src/adapters/persistence/mysql-state-persistence-repository.ts:100-117 | a run with a record persisted out of its turn: two are under delivery at a time and claims go backwards |
| `OutboxRuns.NothingLostOrAltered` | src/adapters/persistence/in-memory-notification-outbox-repository.ts:63-127 | whatever is persisted meanwhile, no record is lost, no message altered, finished records never change and a stored limit stays |
| `OutboxRuns.SendsWithinLimit` | src/application/notifications/outbox-dispatcher.ts:82-151 | with records persisted at any time: sends and accepted marks per record never exceed its claims nor these the limit of its first claim; delivered implies an earlier send that resolved |
| `OutboxRuns.AcceptedExactlyForLatestClaim` | src/adapters/persistence/in-memory-notification-outbox-repository.ts:77-127 | a mark is accepted exactly while the latest claim is the marking worker's and is open, so a reclaimed lease cannot mark |
| `OutboxRuns.LeasesAreKept` | src/adapters/persistence/in-memory-notification-outbox-repository.ts:42-69 | over every run, of two successive claims of a record, whoever makes them, the later one's clock has reached the end of the earlier one's lease, or the next attempt set by a failure marked in between |
| `OutboxRuns.StepKeepsInv` | src/application/notifications/outbox-dispatcher.ts:119-151 | the inductive invariant of records, claims, sends and marks is kept by every step, a persisted record included |
| `OutboxRuns.StepKeepsOrdered` | src/adapters/persistence/in-memory-notification-outbox-repository.ts:22-127 | the order of records and claims is kept by every step but a record persisted out of its turn |
| `OutboxDispatcher.OutboxDispatcher.Deliver` | src/application/notifications/outbox-dispatcher.ts:119-151 | one send; delivered exactly if it resolved and the mark was accepted; otherwise the failure is marked with its backoff, unless that throws too; in every case the records left are told |
| `OutboxDispatcher.OutboxDispatcher.DispatchAvailable` | src/application/notifications/outbox-dispatcher.ts:82-96 | the number returned is that of accepted marks, at most one send more was made; without a stop it ends only with a claim that finds nothing or a mark that is not obtained; a stop during a turn lets that turn end and no other claim begin; it throws exactly if the last claim did |
| `OutboxDispatcher.EveryDispatcherFollows` | src/application/notifications/outbox-dispatcher.ts:82-151 | in every run of the whole system each dispatcher is where the single dispatcher's automaton stands after what it has done since it joined |
| `OutboxDispatcher.EveryMoveIsAStep` | src/application/notifications/outbox-dispatcher.ts:119-151 | whatever that automaton allows after a claim is a step of the whole system |
| `OutboxDispatcher.OutboxDispatcher.RetryDelayDoubles` | src/application/notifications/outbox-dispatcher.ts:130-133 | the delay doubles until its cap and stays there |
| `SqlOutbox.MySqlOutbox.ClaimNext` | src/adapters/persistence/mysql-notification-outbox-repository.ts:84-171 | on every table the SQL claim does exactly what the in-memory one may do; what is under a live lease is left as it is |
| `SqlOutbox.MySqlOutbox.MarkDelivered` | src/adapters/persistence/mysql-notification-outbox-repository.ts:173-188 | the same result and next state as the in-memory mark |
| `SqlOutbox.MySqlOutbox.MarkFailed` | src/adapters/persistence/mysql-notification-outbox-repository.ts:190-222 | an update and a separate read, with others in between |
| `SqlOutbox.MarkFailedAgreesExactly` | src/adapters/persistence/mysql-notification-outbox-repository.ts:190-222 | the two adapters mark a failure alike if and only if the record is not held, or stores its limit, or was never attempted |
| `SqlOutbox.MarkFailedCanDiffer` | src/adapters/persistence/in-memory-notification-outbox-repository.ts:101-127 | a record on which they differ |
| `SqlOutbox.MarkFailedAgreesOnRuns` | src/adapters/persistence/mysql-notification-outbox-repository.ts:190-222 | on every state a run reaches the next states agree, and the results agree exactly if the row read again still has the status it was marked with |
| `SqlOutbox.ReadAgainCanDiffer` | src/adapters/persistence/mysql-notification-outbox-repository.ts:190-222 | a claim between the two statements after which a marked record is reported as nothing |
| `StateStore.StateStore.Dispatch` | src/domain/state/state-store.ts:109-158 | an accepted command replaces the snapshot by its stamped successor, a refused one changes nothing, soundness and irreversibility are kept |
| `StateStore.ReachableIsSound` | src/domain/state/state-store.ts:109-436 | in every reachable state: a detected player means the runtime is ending, spawn completed means spawned, telemetry that is not valid is empty, a task is finished exactly if terminal |
| `StateStore.RunIsIrreversible` | src/domain/state/transitions.ts:11-21 | no run takes back a detection, a stop reason, an ending runtime or a final one, and revisions only grow with changes |
| `StateStore.ChangesFollowTables` | src/domain/state/transitions.ts:11-64 | whatever a command changes follows the transition tables; only a reset leads out of a finished task |
| `StateStore.MachinesChangeApart` | src/domain/state/state-store.ts:169-436 | runtime, connection and task change one at a time, but for a detection, which stops the runtime as it is noted |
| `StateStore.RefusedExactly` | src/domain/state/state-store.ts:169-436 | a command is refused as an invalid transition exactly if the state it meets does not allow it, and as an invalid command exactly if it does and the command asks for what cannot be |
| `StateStore.UnchangedExactly` | src/domain/state/state-store.ts:169-436 | an accepted command makes no change exactly if everything it says is so already; task transitions and errors always make one |
| `StateStore.FieldsFollow` | src/domain/state/state-store.ts:169-436 | what a change leaves in every field of runtime, connection, telemetry, schedule, stop reason and error, all others as they were |
| `StateStore.TaskFollows` | src/domain/state/state-store.ts:116-158 | what it leaves of the task: state, identity, progress, and the times of its start, end and last update |
| `StateStore.EventsTell` | src/domain/state/state-store.ts:109-158 | the clock is read for a change alone and refuses it if it cannot be read; the event of a change carries the next revision, the command and the states before and after |
| `StateStore.EnteredFrom` | src/domain/state/transitions.ts:11-41 | the transition tables read from their targets: from where each state is entered |
| `StateStore.SpacesAre` | src/domain/state/transitions.ts:74-78 | the characters that trimming removes, by code point, so what counts as empty |
| `SafetyPolicy.AllowedExactly` | src/domain/safety/work-safety-policy.ts:38-85 | work is allowed exactly in a ready, spawned, undisturbed runtime with known sufficient vitals, whatever the intent |
| `SafetyPolicy.ReasonMeans` | src/domain/safety/work-safety-policy.ts:38-85 | each reason is given exactly for its own condition in the order of the checks, health before hunger, and an answer is final exactly with another player, a stop reason or an ending runtime |
| `SafetyPolicy.NeverResumedAgain` | src/domain/safety/work-safety-policy.ts:38-85 | once the policy answers not resumable, it does so in all later states, and work is never allowed again |
| `SafetyPolicy.ResumableIsExact` | src/domain/safety/work-safety-policy.ts:38-85 | from a sound state some continuation allows work if and only if the policy answers resumable |
| `Supervisor.ViewStep` | src/domain/state/state-store.ts:169-436 | what the supervisor sees of the store after a command is a function of what it saw before |
| `Supervisor.BalancedMeaning` | src/runtime/supervisor.ts:191-348 | on a balanced trace every connection is opened once and, unless live, shut once, and none is opened after a stop reason |
| `Supervisor.EachShutOnce` | src/runtime/supervisor.ts:222-231 | with none live, every connection was opened once and shut once |
| `Supervisor.VerdictDecides` | src/runtime/supervisor.ts:75-166 | the run's end, and the reason it overrides, follow from the first happening that settles the attempt; listeners are left behind exactly if attaching them threw and nothing settles them |
| `Supervisor.ForeignPlayerStopsTheRun` | src/runtime/supervisor.ts:239-285 | a player without a name, or of another name than the one authenticated, or any player before that, known at the spawn or joining after it before anything else settles the attempt, ends the run in that turn as other_player_detected with exit code 0 |
| `Supervisor.OnlyStrangersSettle` | src/domain/player-detection-policy.ts:16-19 | a join after the spawn settles the attempt exactly if the player has no name or another one than the authenticated; the bot itself never does |
| `Supervisor.LearntMeans` | src/runtime/supervisor.ts:239-300 | what the listeners have learnt is the latest authenticated name and exactly the players that joined and have not left since |
| `Supervisor.StopStandsExactly` | src/runtime/supervisor.ts:75-189 | the run ends normally exactly if a stop settled the attempt, or came after a repeatable error and the wait went through; it overrides a stop exactly otherwise, if one was asked for |
| `Supervisor.OverriddenStop` | src/runtime/supervisor.ts:109-121 | a stop asked for after a fatal error, reported as connection_error |
| `Supervisor.LeftoverShutsTwice` | src/runtime/supervisor.ts:251-259 | a run whose listeners could not be attached, whose connection is disconnected by the run and again by the connect timer |
| `Supervisor.SettledLateMeans` | src/runtime/supervisor.ts:222-340 | what is left behind is settled exactly if some later happening settles what has been learnt before it |
| `Supervisor.RuntimeSupervisor.Run` | src/runtime/supervisor.ts:75-167 | for every script: it ends, in the first turn with something to end it, under exactly the reason that turn decides, which is the only one ever set or stands behind exactly the one it overrides; at most maxRetries + 1 connections, each shut exactly once and none opened after a stop reason; Minecraft is disconnected, the runtime stopped if the exit code is 0 and failed otherwise; the waits are the doubling delays; listeners are left behind exactly if the last attempt leaves them |
| `Supervisor.RuntimeSupervisor.TakeTurn` | src/runtime/supervisor.ts:84-150 | another attempt follows exactly if nothing in the turn ends the run; otherwise the reason it gives stands behind the one it overrides |
| `Supervisor.RuntimeSupervisor.GoOn` | src/runtime/supervisor.ts:107-150 | after an attempt that ended with an error: give up under the matching reason, or wait the next delay and heed the first stop asked for |
| `Supervisor.RuntimeSupervisor.DelaysDouble` | src/runtime/supervisor.ts:133-140 | the waits begin with the initial delay and double with every retry up to the greatest |
| `Supervisor.RuntimeSupervisor.RequestStop` | src/runtime/supervisor.ts:169-189 | the first reason wins, is recorded, and ends a listening attempt |
| `Supervisor.RuntimeSupervisor.React` | src/runtime/supervisor.ts:222-340 | a settled attempt hears nothing more; each happening moves attempt, reason and outcome as its table says; a state event fills the telemetry or empties it |
| `Supervisor.RuntimeSupervisor.Spawn` | src/runtime/supervisor.ts:271-285 | at the spawn the runtime stops if and only if a player other than the bot is known |
| `Supervisor.RuntimeSupervisor.RunAndAfter` | src/runtime/supervisor.ts:75-348 | a run and all that happens after it: every connection is disconnected once, but for one left behind by a failed attachment, which is disconnected twice exactly if something settles it late |
| `Supervisor.RuntimeSupervisor.LeftoverReact` | src/runtime/supervisor.ts:222-340 | what one happening does to listeners left behind: the runtime and connection states stay, telemetry does not, and what settles disconnects again |
| `WeekdayScheduler.CurrentWindowIsInterval` | src/domain/scheduler/weekday-scheduler.ts:33-94 | a window is current at t if and only if it is a weekday window with startsAt <= t < endsAt |
| `WeekdayScheduler.WindowsDisjoint` | src/domain/scheduler/weekday-scheduler.ts:53-61 | windows with distinct ids share no instant |
| `WeekdayScheduler.KnownDays` | src/domain/scheduler/weekday-scheduler.ts:14-61 | days of the week follow one another and a known date is a Monday; its windows are 09:00 to 11:59 and 12:00 to 17:00, nine hours ahead of UTC |
| `WeekdayScheduler.PhaseMeans` | src/domain/scheduler/weekday-scheduler.ts:63-94 | the phase is that of the window that holds the instant, and handoff exactly in the minute between the two of one working day |
| `WeekdayScheduler.StartedAtMostOnce` | src/domain/scheduler/weekday-scheduler.ts:108-160 | for any clock readings starts and stops alternate, each stop names the window last started, and no window starts twice |
| `WeekdayScheduler.ActiveIsCurrent` | src/domain/scheduler/weekday-scheduler.ts:108-160 | after an accepted reading the active window is the one whose interval holds it, or none |
| `WeekdayScheduler.Scheduler.Evaluate` | src/domain/scheduler/weekday-scheduler.ts:108-160 | one reading; a reading that does not advance changes nothing, an invalid one is refused |
| `ScheduledController.BalancedMeaning` | src/application/scheduling/scheduled-runtime-controller.ts:76-181 | every created session is closed once, or abandoned, or is the live one |
| `ScheduledController.AskedOncePerWindow` | src/application/scheduling/scheduled-runtime-controller.ts:94-96 | createSession runs at most once per window id |
| `ScheduledController.NextOnlyAfterClose` | src/application/scheduling/scheduled-runtime-controller.ts:154-181 | when a session is created every earlier one has been closed completely, or was abandoned |
| `ScheduledController.ClosedExactlyIfStarted` | src/application/scheduling/scheduled-runtime-controller.ts:95-131 | once none is live, a session has been closed exactly once if and only if its start did not throw |
| `ScheduledController.SessionAbandoned` | src/application/scheduling/scheduled-runtime-controller.ts:94-131 | an evaluation after which a created session is live nowhere and was never closed |
| `ScheduledController.ScheduledRuntimeController.EvaluateOnce` | src/application/scheduling/scheduled-runtime-controller.ts:76-133 | one evaluation keeps the ledger, and while nothing throws the live session is that of the scheduler's window and every window to be started was asked for; a start intent is asked for, and becomes a session if its creation succeeds, exactly unless the stop before it throws or closes the controller; when it throws and when it closes is decided by the script |
| `ScheduledController.StartDroppedWithItsStop` | src/application/scheduling/scheduled-runtime-controller.ts:79-94 | two readings after which the afternoon counts as started and no session was ever asked for |
| `ScheduledController.ScheduledRuntimeController.Start` | src/application/scheduling/scheduled-runtime-controller.ts:94-131 | the session asked for becomes active exactly if it was created, the controller is open and its start did not throw; one created after closing is closed at once |
| `ScheduledController.ScheduledRuntimeController.StopActive` | src/application/scheduling/scheduled-runtime-controller.ts:154-181 | the live session is told to stop, and none is live afterwards, however finishing and closing interleave |
| `ScheduledController.ScheduledRuntimeController.Run` | src/application/scheduling/scheduled-runtime-controller.ts:59-74 | it takes every poll up to the first that throws or closes, each with its reading of the clock, and asks for every window the scheduler starts, in that order, unless the last poll drops it; no session is live when it returns, whether it was stopped or something threw, and each was closed exactly once unless its start threw; only a controller closed before it was run leaves a session as it was |
| `ScheduledController.ScheduledRuntimeController.Close` | src/application/scheduling/scheduled-runtime-controller.ts:148-152 | a running controller only gets the request; otherwise the live session is stopped and closed |
| `WorldObservation.BlocksAreTheLatest` | src/domain/world-observation/world-observation-store.ts:132-143 | after any observations a block given out shows what was last observed there in this world, at most maxBlocks are held, and one is missing only if more than maxBlocks positions were observed |
| `WorldObservation.CacheAgreesWithLatest` | src/domain/world-observation/world-observation-store.ts:343-354 | the bounded cache agrees with the plain latest observation, with distinct positions and at most maxBlocks of them |
| `WorldObservation.MissingOnlyIfEvicted` | src/domain/world-observation/world-observation-store.ts:350-354 | an observed position is missing only if the cache is full of blocks pushed after it |
| `WorldObservation.PushesShowTheLatest` | src/domain/world-observation/world-observation-store.ts:343-349 | skipping a repeated sight hides nothing |
| `WorldObservation.NothingOutlivesItsWorld` | src/domain/world-observation/world-observation-store.ts:172-237 | a reconnect, disconnect or change of dimension leaves no block, item or registry |
| `WorldObservation.RefusedExactly` | src/domain/world-observation/world-observation-store.ts:160-375 | when each kind of observation is refused, by the fields of the snapshot and the observation alone |
| `WorldObservation.FieldsFollow` | src/domain/world-observation/world-observation-store.ts:160-375 | what each accepted observation leaves in every field, the others as they were; a registry learnt before the spawn is kept by it |
| `WorldObservation.ValidMeans` | src/domain/world-observation/world-observation-store.ts:238-321 | which held items and registries are accepted, by their numbers |
| `WorldObservation.RunIsFaithful` | src/domain/world-observation/world-observation-store.ts:160-375 | the invariant of availability, dimension, registry generation and cache holds after any readings |
| `WorldObservation.WorldObservationStore.Dispatch` | src/domain/world-observation/world-observation-store.ts:160-375 | stale sequences are ignored, refused commands change nothing, accepted ones advance the revision by one |
| `WorldObservation.WorldObservationStore.GetBlock` | src/domain/world-observation/world-observation-store.ts:132-143 | absent, or the latest sight of the position; never absent while at most maxBlocks positions were observed |
| `WorldObservation.WorldObservationStore.GetItemNetworkId` | src/domain/world-observation/world-observation-store.ts:145-158 | given out exactly if ready with a known registry, which is always of the present connection |
| `StatePersistence.UpsertsTakeTheGreater` | src/adapters/persistence/mysql-state-persistence-repository.ts:85-98 | assigned from left to right with the revision last, an upsert replaces the whole row or none of it |
| `StatePersistence.StatementsArePuts` | src/adapters/persistence/mysql-state-persistence-repository.ts:69-176 | each statement is a write that wins only with a greater revision |
| `StatePersistence.SameEventsSameTables` | src/adapters/persistence/mysql-state-persistence-repository.ts:59-176 | the four tables depend only on the set of committed events, not on their order or number |
| `StatePersistence.SnapshotIsLatest` | src/adapters/persistence/mysql-state-persistence-repository.ts:85-98 | the snapshot row of a run holds the greatest committed revision, the state after that event and the time it was updated; there is one exactly if an event of the run was committed |
| `StatePersistence.CheckpointIsLatest` | src/adapters/persistence/mysql-state-persistence-repository.ts:144-176 | the checkpoint row of a task holds the greatest committed revision that carries the task, with the task as it stood after that event; there is one exactly if some event carries it |
| `StatePersistence.HistoryIsTheEvents` | src/adapters/persistence/mysql-state-persistence-repository.ts:69-83 | there is a history row exactly for every committed revision of a run, with the time, the cause and the states before and after of its event |
| `StatePersistence.OutboxIsWhatIsTold` | src/adapters/persistence/mysql-state-persistence-repository.ts:100-117 | there is an outbox record exactly for every committed event of which something is told, with the revision, time and texts of that event, pending and never attempted |
| `StatePersistence.OutboxRecordsStay` | src/adapters/persistence/mysql-state-persistence-repository.ts:100-117 | a transaction adds at most its own untouched outbox record and leaves every other as it is |
| `StatePersistence.CommittingAgain` | src/adapters/persistence/mysql-state-persistence-repository.ts:59-134 | committing a transaction twice is committing it once |
| `StatePersistence.StoreRunsAreCoherent` | src/domain/state/state-store.ts:109-158 | the events of stores have one event per revision, whatever the runs and whenever they began |
| `StatePersistence.MySqlStatePersistenceRepository.Persist` | src/adapters/persistence/mysql-state-persistence-repository.ts:59-134 | a transaction happens as a whole or not at all, even when its answer is lost; without its run it cannot happen |
| `StatePersistence.StatePersistenceSubscriber.Accept` | src/application/persistence/state-persistence-subscriber.ts:58-62 | events queue up in strictly increasing revisions |
| `StatePersistence.StatePersistenceSubscriber.PersistWithRetry` | src/application/persistence/state-persistence-subscriber.ts:76-93 | at most maxAttempts attempts with doubling waits; acknowledged means stored, and nothing but the event is stored; neither acknowledged nor reported exactly if closed in the wait after a failure that would be retried |
| `StatePersistence.DroppedExactly` | src/application/persistence/state-persistence-subscriber.ts:76-93 | the exact condition of a drop, on the answers and closes alone |
| `StatePersistence.DroppedInItsWait` | src/application/persistence/state-persistence-subscriber.ts:64-93 | a subscriber closed in its first wait: the event is stored nowhere and reported to nobody |
| `Notifications.ToldByCause` | src/application/notifications/notification-mapper.ts:92-206 | for every change a store can make, the mapper's branches tell what its command was about |
| `Notifications.SecondErrorIsNotTold` | src/application/notifications/notification-mapper.ts:102-130 | an error recorded again within its millisecond: an event of which nothing is told |
| `Notifications.SeveritiesAre` | src/application/notifications/notification-mapper.ts:29-206 | only a safety stop is critical, giving up and failures are errors, interruptions are warnings, the rest is information |
| `Notifications.IdReadsBack` | src/application/notifications/notification-mapper.ts:15-27 | the revision can be read back from the text of a notification id, so ids written alike are of one revision |
| `Notifications.SafetyStopToldOnce` | src/application/notifications/notification-mapper.ts:102-111 | a run tells of another player at most once, and exactly if one was detected |
| `Notifications.NotificationSubscriber.Accept` | src/application/notifications/notification-subscriber.ts:55-101 | an event is dropped exactly if its id is remembered; and what was sent is always exactly what the events heard tell, whatever the capacity |
| `Notifications.NotificationSubscriber.Subscribe` | src/application/notifications/notification-subscriber.ts:41-53 | subscribing at a revision no lower keeps the filter from ever dropping |
| `Notifications.NotificationSubscriber.DropsAfterResubscribing` | src/application/notifications/notification-subscriber.ts:41-81 | subscribed again at a lower revision, some event would be dropped exactly if an id above it is still remembered |
| `Notifications.NotificationSubscriber.AcceptAll` | src/application/notifications/notification-subscriber.ts:55-101 | with no id above the last accepted revision remembered, every later run of events is told in full |
| `Notifications.SecondConnectingIsDropped` | src/application/notifications/notification-subscriber.ts:41-81 | two fresh stores that connect: the second is never told |
| `DiscordWebhook.DiscordWebhookNotificationPort.Send` | src/adapters/notifications/discord-webhook-notification-port.ts:261-397 | sent exactly after a last call answered with success before the budget is over, at most maxAttempts calls, each within the budget and after a retryable failure, put off as long as it must be; over within the budget if nothing outlasts its time; every error counts the calls and has the cause its code names, cancelled exactly if closed; after a success the next send rests as long as the answer asks; without an attempt allowed, exactly when it resolves |
| `DiscordWebhook.SentWithoutACall` | src/adapters/notifications/discord-webhook-notification-port.ts:261-397 | for every number of attempts below one, a send that resolves without a call |
| `DiscordWebhook.DiscordWebhookNotificationPort.Refused` | src/adapters/notifications/discord-webhook-notification-port.ts:336-395 | an attempt follows only 429 with a readable delay or 500, 502, 503, 504, and only with attempts left; each error has its cause |
| `DiscordWebhook.DiscordWebhookNotificationPort.Attempt` | src/adapters/notifications/discord-webhook-notification-port.ts:403-470 | an answer counts only if it comes in time and the port is open |
| `DiscordWebhook.DiscordWebhookNotificationPort.WaitWithinBudget` | src/adapters/notifications/discord-webhook-notification-port.ts:494-527 | a wait that does not fit into the budget is refused at once |
| `DiscordWebhook.DiscordWebhookNotificationPort.RecordRateLimit` | src/adapters/notifications/discord-webhook-notification-port.ts:472-480 | the next send is put off exactly if the limit is used up and its reset is readable |
| `DiscordWebhook.DueWithinADay` | src/adapters/notifications/discord-webhook-notification-port.ts:113-122 | the next call is never due before the answer, and after a 429 at most a day later, beside the time its body took to read |
| `DiscordWebhook.BackoffDoubles` | src/adapters/notifications/discord-webhook-notification-port.ts:486-492 | the backoff begins with 250 ms and doubles; a jitter is added in whole milliseconds if it is readable and not negative |
| `DiscordWebhook.TimeoutFits` | src/adapters/notifications/discord-webhook-notification-port.ts:296-300 | a call may last exactly as long as both its timeout and the budget allow |
| `FrameOwnership.GateIsExact` | src/adapters/minecraft/bedrock-authoritative-frame-ownership.ts:144-159 | the gate passes exactly with safety allowed and a revision equal to the latest, and each error has its own cause |
| `FrameOwnership.OneMoreCommit` | src/adapters/minecraft/bedrock-authoritative-frame-ownership.ts:121-135 | a commit keeps ticks strictly increasing and leases committed once, each placement with its passed gate |
| `FrameOwnership.BedrockAuthoritativeFrameOwnership.Acquire` | src/adapters/minecraft/bedrock-authoritative-frame-ownership.ts:100-117 | granted exactly if open, free and beyond the last committed tick |
| `FrameOwnership.BedrockAuthoritativeFrameOwnership.AcquireBlockPlacement` | src/adapters/minecraft/bedrock-authoritative-frame-ownership.ts:73-93 | granted exactly if moreover the gate passes and the target is within reach in the same dimension; a refusal names the first condition that fails |
| `FrameOwnership.ReachIsThreeBlocks` | src/adapters/minecraft/bedrock-authoritative-frame-ownership.ts:83-91 | within reach is no more than three blocks in a straight line, in the dimension of the target |
| `FrameOwnership.BedrockAuthoritativeFrameOwnership.CommitLease` | src/adapters/minecraft/bedrock-authoritative-frame-ownership.ts:121-135 | succeeds exactly for the active lease whose gate passes now; a failed gate uses the lease up |
| `FrameOwnership.BedrockAuthoritativeFrameOwnership.Release` | src/adapters/minecraft/bedrock-authoritative-frame-ownership.ts:136-140 | settles the lease and frees the stream only if it was its own |
| `FrameOwnership.BedrockAuthoritativeFrameOwnership.Close` | src/adapters/minecraft/bedrock-authoritative-frame-ownership.ts:95-98 | no lease is active any more |
| `MovementPort.BedrockMovementPort.Move` | src/adapters/minecraft/bedrock-movement-port.ts:223-335 | a step that is granted its tick hands over its frame exactly if both listeners were attached and nothing stopped it before, and the tick is committed with it or neither is; its answer is the one its script decides; a refusal names its cause |
| `MovementPort.ArrivesExactly` | src/adapters/minecraft/bedrock-movement-port.ts:255-329 | a step arrives if and only if its frame was handed over, no connection was lost before, and the first decisive happening after it is the sight of a finite position in its dimension |
| `MovementPort.FirstDecisiveAnswers` | src/adapters/minecraft/bedrock-movement-port.ts:279-316 | of all that happens after the send the first decisive happening gives the answer: everything counts but a correction of an earlier tick and the end of the frame stream |
| `MovementPort.BedrockMovementPort.SendFrame` | src/adapters/minecraft/bedrock-movement-port.ts:318-327 | the tick is taken before the frame is handed over, or neither happens; a transport that throws does not give it back |
| `MovementPort.BedrockMovementPort.Stop` | src/adapters/minecraft/bedrock-movement-port.ts:337-342 | aborts the step under way and closes the stream |
| `MovementPlan.CreateMovementPlan` | src/domain/movement/movement-plan.ts:62-100 | accepted exactly if valid and spanned by maxSteps steps; then short steps inside the world that end at the target, and no more than needed |
| `MovementPlan.StraightPlanIsSound` | src/domain/movement/movement-plan.ts:78-99 | equal parts of a straight way meet every promise of a plan |
| `MovementPlan.NoShorterWalk` | src/domain/movement/movement-plan.ts:73-77 | no other way in steps of the allowed length has fewer steps |
| `MovementPlan.CountDecides` | src/domain/movement/movement-plan.ts:74-77 | the number of steps is the least that spans the distance, and exists exactly if the limit does |
| `MovementPlan.ToleranceBySquares` | src/domain/movement/movement-plan.ts:102-108 | comparing squares decides the tolerance as lengths do |

## Left out

- Bedrock client, packet decoding, authentication, the MySQL driver, migrations, HTTP server, configuration loaders, operator commands and log redaction: plumbing and shallow checks.
- `InstanceLock`: it rests on file-system semantics outside the code.
- `MovementCoordinator`, `SimpleWorkCoordinator`, `SafetyControlledTaskQueue`, `ReadonlyTaskExecutor`: the shape of the block coordinator with weaker guarantees; they appear in `QueueRuns` as any users of the queue.
- Freezing of objects, microtask delivery of events, error reporters, progress reports, changed-field lists and logs: no effect on the modelled state.
- IEEE rounding and `Math.hypot`: coordinates are reals and lengths are compared by squares.
- Printed dates: days are numbers and instants are milliseconds, so the year printing of `Date.UTC` for years 0 to 99 does not appear.
- Text: identifiers are ordered by code point and not by a locale, regular expressions on them are taken as met, JSON columns hold values, and string lengths count characters.
- Values of the wrong JavaScript type: dimensions, slots and states are enumerations; what the code refuses beyond them (numbers that are not finite or not integers) is modelled where it has its own branch.
- Fairness: calls that never end are outside the scripts; a supervisor's attempt settles at last by its timer or its connection's end, a session's run ends after it was told to stop.
- Errors thrown by loggers, by `disconnect` and `off`, or by a session's `close` before it returns its promise; and stop requests made from inside `createConnection`.
- A port call that settles after its timer has fired: its late result is ignored by the code and does not appear.
- The gate of a block placement is asked through plain getters; getters that call back into the lease are not modelled.
- Time spent in synchronous code between two clock readings of one webhook send.
- Concurrent sends through one webhook port: its callers send one after the other.
- Supervisor.RuntimeSupervisor.Run: the store is fresh, other parts use it only for task and schedule commands, as they do in this program, and the clock is readable.
- ScheduledController.ScheduledRuntimeController.Run: evaluations are sequential, as in run; the scheduler is used by one controller.
- StatePersistence.MySqlStatePersistenceRepository.Persist: the notification is the one the subscriber maps from the event; the isolation of transactions is that of atomic steps.
- MovementPort.BedrockMovementPort.Move: what other holders of the frame stream do while a step waits for its observation does not touch the step and is modelled as calls after it.
- Read-only instructions of the queue: their fields are kept, their numeric checks are not repeated.
