# Verified models of Nexora's command path and stores

This project models, in Dafny, the parts of Nexora that carry a command from the cloud
to a device and its result back, and the small stateful stores around that path. Each
model is a state machine whose steps are the stretches of a handler between two awaits
that really suspend, so that every interleaving of handlers is a run of steps. Beside
each state machine stands a class with the handlers themselves, written as the program
writes them and proved to perform exactly those steps; the properties are then proved of
all runs.

| file | what it models |
|---|---|
| `OfflineQueue.dfy` | the agent's SQLite queue: `enqueue`, `peek`, `ack`, `nack`, `drain` |
| `Retries.dfy` | what the retry cap means for one row: how often it is posted before it is gone |
| `Telemetry.dfy` | the telemetry buffer, `record`, `flush` and the drain of queued batches |
| `Tunnel.dfy` | the agent's handling of control messages: execute, acknowledge, report or queue |
| `Drains.dfy` | the drain bound for the agent's own, interruptible steps |
| `Gateway.dfy` | the gateway's in-memory dispatch plane: Kafka ingest, websockets, replay, acks |
| `Delivery.dfy` | the pull endpoint `deliver`: retries, backoff, outcomes |
| `CommandPath.dfy` | the gateway and all agents together, over a network that loses, repeats and reorders |
| `Executions.dfy` | the execution table: life cycle, quota, idempotency keys, triggers, timeouts |
| `LostReport.dfy` | an agent and the execution service together, when the report that an execution runs is lost |
| `Runbook.dfy`, `Rollout.dfy` | runbooks and canary rollouts over that table |
| `Shadow.dfy` | device shadows: desired and reported patches, heartbeats, cached delta, version, events |
| `Pairing.dfy`, `Consent.dfy` | discovery and pairing (RFC 8628, sections 3.2 and 3.5); consents and their audit log |
| `FunctionRuntime.dfy` | the function registry and the disk it is rebuilt from |
| `Escalation.dfy`, `Risk.dfy` | event analysis with an escalation window; device and fleet risk scores |
| `Prelude.dfy`, `Bags.dfy`, `AgentData.dfy` | shared datatypes and facts about multisets over sequences |

`dafny verify dfyconfig.toml` checks the whole project.

## Where the code does not do what one might expect

The models follow the code. Each of these has a lemma at a failing input, and beside it the
exact condition under which the code does what one expects.

- Closing a websocket drops its device's route whichever socket the route points to. A
  device that reconnects before its old handler ends is live, replayed and no longer
  routed, and the next dispatch is never handed to it (`Gateway.OverlapMissesPush`,
  `Gateway.UnroutedIsNeverHanded`). A fresh dispatch reaches an open socket exactly when the
  device is routed to it (`Gateway.IngestMissesUnrouted`), and with one connection at a time
  always (`Gateway.LiveSocketsAreServed`).
- A flush whose post raises puts its batch back into the buffer and also queues it, so the
  samples are there twice (`Telemetry.RaisedPostDoubles`); they are there once exactly when
  no post raised (`Telemetry.ExactlyOnceIff`).
- A dispatched row cannot go straight to `succeeded`. The agent ignores the outcome of its
  "running" report, so when that report is lost every later report of success is answered
  409 (`Executions.LostRunningReport`), and the result is posted ten times in vain and
  dropped (`LostReport.LostReportLosesSuccess`, `LostReport.LostSuccessIsDropped`). A
  well-formed report is accepted exactly while the row is running (`Executions.SuccessIff`).
- A callback may report "dispatched" itself (`Executions.CallbackDispatchIsUntimed`). Such a
  row has no dispatch time and is never timed out (`Executions.UntimedNeverTimesOut`); one
  with a time is, by the first sweep after the limit (`Executions.SilentDeviceTimesOut`).
- The quota check is skipped for an empty device name, which can fill up without limit
  (`Executions.EmptyDeviceFillsUp`); every other name is bounded (`Executions.QuotaAndKeys`).
- Reporting the delta empties it exactly when the desired state holds no NaN at top level
  (`Shadow.ReportingDeltaConverges`, `Shadow.NaNNeverSyncs`).
- The telemetry of an agent's heartbeat is merged into the reported half without removing
  nulls, so that half can hold a top-level null (`Shadow.HeartbeatLeavesNull`); it does
  exactly when the last heartbeat naming the key since the last report said so
  (`Shadow.LastReportWins`). A heartbeat that brings the device into sync never publishes
  `synced` (`Shadow.HeartbeatSyncsSilently`).
- A delivery that is cut off during its last attempt is never delivered, even if the
  device has a session at the next call (`Delivery.LastAttemptIsLost`, `Delivery.DeliveredIff`).
- An insight is counted when its event is analysed and created when its summary is ready,
  so a slow summary can make it critical although the window that ends at its creation is
  almost empty (`Escalation.SlowSummaryEscalatesEarly`); a clock that turns back meanwhile
  can hide a breach (`Escalation.ClockBackHidesBreach`). Its severity is exactly the one of
  the window before its analysis (`Escalation.SeverityIsExact`), and agrees with the window
  before its creation under an exact condition (`Escalation.AgreesWithCreationIff`).
- A new insight can lower a device's risk score, because only the newest 50 are read
  (`Risk.NewInsightCanLower`, `Risk.NewInsightLowersIff`).
- An installation whose id fits the name of the artifact file but not the longer one of its
  metadata leaves an artifact that nothing lists and nothing removes
  (`FunctionRuntime.OrphansAreLongNames`).
- A trigger that is neither for the event's device nor for one of its own is to be skipped,
  says the comment at `services/execution-service/main.py:208`; the code leaves an execution
  of no device. Without a device nothing happens exactly for the other two kinds
  (`Executions.TriggerWithoutDevice`).

## Model

| member | source | states |
|---|---|---|
| `OfflineQueue.FairDraining` | packages/nexora-agent/src/nexora_agent/offline_queue.py:65-116 | a row with at most r older rows in front of it has left the queue after 10 * (r / 50 + 1) drains, whatever the sends return or raise and however many rows are enqueued between and within the drains |
| `OfflineQueue.FairBoundIsReached` | packages/nexora-agent/src/nexora_agent/offline_queue.py:79-116 | that bound cannot be lowered: in an outage the row with r fresh rows in front is still queued one drain earlier |
| `OfflineQueue.AttemptsStayBelowTen` | packages/nexora-agent/src/nexora_agent/offline_queue.py:34-84 | from an empty table, ids stay ordered and every stored attempt count lies in 0..9 |
| `OfflineQueue.TenRoundsClear` | packages/nexora-agent/src/nexora_agent/offline_queue.py:79-116 | ten drains empty the part of the queue that one batch can hold |
| `OfflineQueue.RoundKeepsOrder` | packages/nexora-agent/src/nexora_agent/offline_queue.py:87-116 | one drain never puts a row in front of an existing one, counted in any range of ids |
| `OfflineQueue.RoundCostsALife` | packages/nexora-agent/src/nexora_agent/offline_queue.py:79-116 | one drain costs an attempt to every row of a backlog that fits one batch |
| `OfflineQueue.SettleAt` | packages/nexora-agent/src/nexora_agent/offline_queue.py:73-84 | the DELETE and UPDATE statements of ack and nack touch only the row with that id, and leave of it what the retry cap allows |
| `OfflineQueue.Queue.Enqueue` | packages/nexora-agent/src/nexora_agent/offline_queue.py:49-57 | appends one row with the next id and no attempts |
| `OfflineQueue.Queue.Peek` | packages/nexora-agent/src/nexora_agent/offline_queue.py:65-70 | returns the oldest rows, up to the limit, and changes nothing |
| `OfflineQueue.Queue.Drain` | packages/nexora-agent/src/nexora_agent/offline_queue.py:87-116 | the whole loop equals its specification: each row of the batch leaves or loses a life, no other row is touched, arrivals stand at the end |
| `Retries.DrainDecides` | packages/nexora-agent/src/nexora_agent/offline_queue.py:98-114 | a row of the batch is queued after the drain, with one more attempt, exactly when it is a sample batch or a result, its send was refused or raised, and that was not its tenth failure; an accepted one and one of another kind leave |
| `Retries.DrainLeavesOthers` | packages/nexora-agent/src/nexora_agent/offline_queue.py:65-70 | rows behind the batch of fifty are untouched |
| `Retries.EnqueuedMeanwhileStays` | packages/nexora-agent/src/nexora_agent/offline_queue.py:49-57 | what is enqueued while a send is awaited or after it is queued afterwards as a fresh row |
| `OfflineQueue.Queue.Nack` | packages/nexora-agent/src/nexora_agent/offline_queue.py:79-84 | the row with that id has one more attempt, and is gone exactly when that is its tenth; every other row is as it was, in the same order |
| `OfflineQueue.Queue.Ack` | packages/nexora-agent/src/nexora_agent/offline_queue.py:73-76 | a row is in the table afterwards exactly if it was before and has another id; the order is kept |
| `Retries.EveryPostIsRecorded` | packages/nexora-agent/src/nexora_agent/offline_queue.py:79-116 | a row whose posts all fail has one attempt on record for each of them while it is there, and is gone exactly when they reach ten |
| `Retries.DroppedAfterTen` | packages/nexora-agent/src/nexora_agent/offline_queue.py:79-116 | a fresh row whose posts all fail is posted exactly ten times within 10 * (r / 50 + 1) drains and is dropped then |
| `Retries.GoneStaysGone` | packages/nexora-agent/src/nexora_agent/offline_queue.py:49-57 | a row that is gone never comes back and is never posted again |
| `Telemetry.NothingIsLost` | packages/nexora-agent/src/nexora_agent/telemetry.py:23-61 | in every interleaving of record, flush and drain every recorded sample is buffered, in flight, queued, answered with 2xx, or in a row dropped at its tenth failure |
| `Telemetry.CopiesAreCounted` | packages/nexora-agent/src/nexora_agent/telemetry.py:28-61 | the copies of the samples are the recorded ones plus exactly one more per sample of a flush whose post raised |
| `Telemetry.ExactlyOnceIff` | packages/nexora-agent/src/nexora_agent/telemetry.py:28-61 | every sample is in exactly one place if and only if no post raised |
| `Telemetry.RaisedPostDoubles` | packages/nexora-agent/src/nexora_agent/telemetry.py:54-61 | a run in which it did: one sample is in the buffer and in a queued row |
| `Telemetry.AcceptedIsAnswered` | packages/nexora-agent/src/nexora_agent/telemetry.py:46-52 | in every run the accepted samples are exactly those whose posts were answered with success, by a flush or by a drain |
| `Telemetry.ItemDecides` | packages/nexora-agent/src/nexora_agent/offline_queue.py:98-114 | an accepted batch leaves the queue; a refused or raised one stays with one more attempt, or is dropped with its tenth |
| `Telemetry.FlushEnds` | packages/nexora-agent/src/nexora_agent/telemetry.py:42-61 | an ended flush is over: its batch is a fresh row unless it was accepted, and back in the buffer if the post raised |
| `Telemetry.FlushTakesBuffer` | packages/nexora-agent/src/nexora_agent/telemetry.py:30-34 | a flush takes the whole buffer |
| `Telemetry.PostedFields` | packages/nexora-agent/src/nexora_agent/telemetry.py:36-39 | a posted sample has every field that was given, with its value, and no other |
| `Telemetry.RecordedFields` | packages/nexora-agent/src/nexora_agent/telemetry.py:23-39 | so a recorded one is posted with metric, value and time, and with a unit exactly if there was one |
| `Telemetry.Agent.Flush` | packages/nexora-agent/src/nexora_agent/telemetry.py:28-61 | one call, with anything happening while it posts, is the swap, the others' steps and the landing in a row; true means posted |
| `Telemetry.Agent.RecordSample` | packages/nexora-agent/src/nexora_agent/telemetry.py:23-25 | appends one sample to the buffer |
| `Telemetry.Agent.RecordOne` | packages/nexora-agent/src/nexora_agent/telemetry.py:23-25 | builds the sample from its four fields and appends it |
| `Telemetry.Agent.Land` | packages/nexora-agent/src/nexora_agent/telemetry.py:42-61 | after the post: done, queued, or put back and queued |
| `Tunnel.ResultsAreConserved` | packages/nexora-agent/src/nexora_agent/tunnel.py:120-197 | each finished result is exactly once about to be posted, queued, answered with 2xx, or dropped with a row whose post had failed exactly ten times |
| `Tunnel.NextKeepsHonest` | packages/nexora-agent/src/nexora_agent/tunnel.py:120-157 | no step acknowledges or posts a result of an execution that was not executed to completion |
| `Tunnel.BooksAreExact` | packages/nexora-agent/src/nexora_agent/tunnel.py:140-197 | in every run the accepted results are exactly those whose posts were answered with success, and the failures of a row are exactly its refused or raised posts |
| `Tunnel.ItemDecides` | packages/nexora-agent/src/nexora_agent/offline_queue.py:98-114 | an accepted drain item leaves the queue; a refused or raised one stays with one more attempt, unless that is its tenth |
| `Tunnel.TasksAdvance` | packages/nexora-agent/src/nexora_agent/tunnel.py:120-157 | a task reports, executes, acknowledges if the message goes out, and posts its result, which is queued as a fresh row unless it is answered |
| `Tunnel.OthersAdvance` | packages/nexora-agent/src/nexora_agent/tunnel.py:81-99 | a control message starts a task; a drain takes the oldest fifty rows |
| `Tunnel.Agent.HandleControl` | packages/nexora-agent/src/nexora_agent/tunnel.py:120-157 | one control message from its early report to its end, with other tasks running at every await: an acknowledged one was executed, and its result was accepted or is queued as a row |
| `Tunnel.Agent.DrainNext` | packages/nexora-agent/src/nexora_agent/tunnel.py:77-84 | one item of the drain on reconnect |
| `Drains.FairDrains` | packages/nexora-agent/src/nexora_agent/tunnel.py:77-84 | the drain bound for the agent's own steps: a row with at most r older ones in front has left when 10 * (r / 50 + 1) drains are complete, whatever tasks interrupt them |
| `Drains.TenDrainsClear` | packages/nexora-agent/src/nexora_agent/tunnel.py:77-84 | ten complete drains empty the part of the queue that one batch holds |
| `Gateway.NoMissedPush` | services/nexora-edge/main.py:247-263 | in every interleaving of ingest, connect, reconnect, ack and disconnect: when the socket a device is routed to has finished its replay, every pending dispatch of the device has been handed to that very socket |
| `Gateway.OverlapMissesPush` | services/nexora-edge/main.py:702-709 | an overlapping reconnect whose old handler ends late leaves a live socket that is not handed the next dispatch then, nor in any continuation |
| `Gateway.IngestMissesUnrouted` | services/nexora-edge/main.py:388-422 | a fresh dispatch reaches an open socket that has taken its snapshot, replaying or listening, exactly when the device is routed to it at that moment |
| `Gateway.UnroutedIsNeverHanded` | services/nexora-edge/main.py:412-422 | a socket no device is routed to stays so, and is never handed anything but what its replay still holds |
| `Gateway.LiveSocketsAreServed` | services/nexora-edge/main.py:640-709 | with one connection at a time per device every live socket has been handed every pending dispatch of its device, and none of another |
| `Gateway.UnackedIsRedelivered` | services/nexora-edge/main.py:640-709 | an ingested dispatch stays pending through any steps but its own ack or replacement, and a routed socket whose replay is over has been handed it |
| `Gateway.PendingIff` | services/nexora-edge/main.py:682-686 | after its last ingest a dispatch is pending if and only if no acknowledgement was read and no other dispatch of its execution came since |
| `Gateway.AckIsFinal` | services/nexora-edge/main.py:682-686 | after an acknowledgement, until the execution is ingested again, it is not pending, no replay that begins later holds it, and no socket that connects later is ever handed it |
| `Gateway.ConnectionsRoute` | services/nexora-edge/main.py:642-643 | a connection routes its device to its own socket; its end closes the socket and leaves the device without a route |
| `Gateway.ClosedStays` | services/nexora-edge/main.py:702-709 | nothing is sent on a closed socket and nothing is read from it |
| `Gateway.Process.ConsumeDispatched` | services/nexora-edge/main.py:388-422 | stores the dispatch, then pushes it to the routed socket |
| `Gateway.Process.OpenTunnel` | services/nexora-edge/main.py:640-670 | one connection from registration to the end of its replay, with any steps of others in between: the socket listens, and if the device is still routed to it every pending dispatch of the device was sent on it |
| `Gateway.Process.ReceiveAck` | services/nexora-edge/main.py:682-691 | deletes what is stored under the acknowledged execution |
| `Gateway.Process.Disconnect` | services/nexora-edge/main.py:702-709 | drops the device from the socket map |
| `Delivery.Endpoint.Deliver` | services/nexora-edge/main.py:726-869 | one call, cut off anywhere, against its specification: outcome, completed sleeps, and the stored dispatches afterwards; delivered if and only if an attempt is left and the device has a session under a name other than unknown |
| `Delivery.OutcomeMeans` | services/nexora-edge/main.py:728-869 | what the outcome tells: a delivery at the next attempt without sleep, or a failure with its reason after the whole backoff |
| `Delivery.CutOffIsCounted` | services/nexora-edge/main.py:740-742 | a call cut off has counted each attempt it made, with the reason, and slept after each but the last |
| `Delivery.ConcludesIff` | services/nexora-edge/main.py:832-860 | a call without a session fails, and removes the dispatch, exactly when it survives its pauses and the publication |
| `Delivery.FullSleep` | services/nexora-edge/main.py:832-841 | a call with no session that starts at a < M attempts and runs to its end sleeps B * (M(M-1) - a(a+1)) / 2 |
| `Delivery.RetriesAreBounded` | services/nexora-edge/main.py:728-869 | over any calls, interrupted or not, the counter only grows, counts every attempt and never passes the limit; the dispatch is gone exactly when one call has concluded, and no second one does |
| `Delivery.DeliveredIff` | services/nexora-edge/main.py:728-869 | over calls with the sessions there are at each: delivered if and only if some call finds the dispatch with an attempt left and a session of its device |
| `Delivery.LastAttemptIsLost` | services/nexora-edge/main.py:740-742 | when the call that makes the last attempt is cut off during it, no later call delivers |
| `CommandPath.AcknowledgedMeansExecuted` | packages/nexora-agent/src/nexora_agent/tunnel.py:120-157 | gateway and agents together: an ingested execution that is no longer pending was executed to completion, and agents execute only what was ingested for their device |
| `CommandPath.ExecutedByItsDevice` | packages/nexora-agent/src/nexora_agent/tunnel.py:120-157 | an execution ingested for one device only was executed by that device's agent |
| `CommandPath.ResultsAccountedFor` | packages/nexora-agent/src/nexora_agent/tunnel.py:144-197 | every finished result of every agent is held for the post, queued, answered with 2xx, or dropped after ten failed attempts; an ingested execution that is no longer pending has one |
| `LostReport.LostReportLosesSuccess` | packages/nexora-agent/src/nexora_agent/tunnel.py:124-157 | agent and execution service together: when no report that an execution runs arrives, a successful result of it is answered 409, never accepted, and its row never reads succeeded; every copy of the result is held, queued, or dropped with a row that failed exactly ten times |
| `LostReport.LostSuccessIsDropped` | packages/nexora-agent/src/nexora_agent/tunnel.py:187-197 | in the same runs: once such a result is queued with at most r rows in front, 10 * (r / 50 + 1) further drains, whatever interrupts them, leave its row dropped after exactly ten failed posts |
| `Executions.QuotaAndKeys` | services/execution-service/main.py:451-502 | in every reachable state a named device has at most the limit of active rows made through the API, trigger-made ones come on top, and no two rows share a non-empty key |
| `Executions.EmptyDeviceIsUnlimited` | services/execution-service/main.py:460-467 | for an empty device name the quota does not apply |
| `Executions.EmptyDeviceFillsUp` | services/execution-service/main.py:460-467 | from the empty table, n creations under the empty name leave n active rows, whatever the limit |
| `Executions.KeyAnswersItsRow` | services/execution-service/main.py:451-459 | while a row lives, every creation with its key answers with it and changes nothing |
| `Executions.OnlyCreateActivates` | services/execution-service/main.py:576-586 | no step but a successful creation makes a row active |
| `Executions.FirstTerminalResultWins` | services/execution-service/main.py:689-713 | a terminal row keeps all its fields under any steps until it is deleted |
| `Executions.OutputsAreTheReported` | services/execution-service/main.py:699-709 | in every reachable state exit code, stdout, stderr and function result of a row are each what the last accepted callback naming that field gave, and none if there is none |
| `Executions.RowsAreAsAskedFor` | services/execution-service/main.py:476-498 | in every reachable state each row is as a creation or a trigger asked for it; a blocked one is a trigger's and no dispatch has sent it |
| `Executions.StatusChangesAreExplained` | services/execution-service/main.py:576-583 | a status changes only along an allowed move and by a step that says so, and the two times only with a dispatch or an accepted running report |
| `Executions.StepsTakeEffect` | services/execution-service/main.py:576-583 | dispatching a permitted queued row, cancelling an active one and sweeping one past its time have their effect, and exactly then |
| `Executions.SilentDeviceTimesOut` | services/execution-service/main.py:167-187 | a row dispatched at a time and not heard of stays dispatched while sweeps come within the limit, and the first sweep after it times the row out |
| `Executions.UntimedNeverTimesOut` | services/execution-service/main.py:177-184 | a dispatched row without a dispatch time is never timed out |
| `Executions.CallbackDispatchIsUntimed` | services/execution-service/main.py:693-701 | a callback that reports dispatched leaves such a row |
| `Executions.MovesAreAllowed` | services/execution-service/src/execution_service/core/config.py:62-66 | the ten moves between statuses |
| `Executions.CreationAnswers` | services/execution-service/main.py:451-502 | which answer a creation gives when: the row of the key, each refusal, or the new row |
| `Executions.RefusalsAreExplained` | services/execution-service/main.py:562-583 | which refusal dispatch, callback and cancellation give when |
| `Executions.LookupsDecide` | services/execution-service/main.py:608-655 | a function dispatch is answered with the refusal of its lookups, if there is one |
| `Executions.DuplicateIsRefused` | services/execution-service/src/execution_service/models/execution.py:93-104 | a repeated final callback is answered 409 and writes nothing |
| `Executions.LostRunningReport` | services/execution-service/src/execution_service/core/config.py:58-66 | without an accepted "running" report a dispatched row never becomes succeeded, and reports of success get 409 |
| `Executions.SuccessIff` | services/execution-service/src/execution_service/core/config.py:58-66 | a well-formed report of success is accepted if and only if the row is running |
| `Executions.Store.CreateExecution` | services/execution-service/main.py:446-517 | the replies and the new table, every refusal included |
| `Executions.Store.DispatchExecution` | services/execution-service/main.py:562-667 | the status change, and the replies where a lookup fails after it was committed; the published envelope is left out |
| `Executions.Store.CallbackExecution` | services/execution-service/main.py:671-717 | validation, transition check and result fields |
| `Executions.Store.CancelExecution` | services/execution-service/main.py:782-809 | cancels what may be cancelled and refuses the rest |
| `Executions.Store.TimeoutSweep` | services/execution-service/main.py:167-187 | the loop times out exactly the active rows past their deadline |
| `Executions.Store.FireTrigger` | services/execution-service/main.py:202-245 | the device of the trigger, the triggers skipped for want of one, and the creation and dispatch without the quota check |
| `Executions.TriggerWithoutDevice` | services/execution-service/main.py:203-242 | without a device the table stays as it is if and only if the trigger is for the device of the event or one of its own; any other leaves an execution of no device, dispatched if and only if the policy lets it |
| `Executions.TriggersTarget` | services/execution-service/main.py:203-242 | a trigger's execution is for the device the event names, or else its payload, or for the trigger's own |
| `Executions.DeletionRemoves` | services/execution-service/main.py:538-545 | a deletion removes its row and no other |
| `Executions.Store.DeleteExecution` | services/execution-service/main.py:538-558 | removes one row or answers an error |
| `Runbook.RunbookMeetsQuota` | services/execution-service/main.py:995-1048 | n permitted steps on a device with room r dispatch the first min(n, r); without a stop the others get 429, with it there is one error entry, last, if and only if n > r |
| `Runbook.ExecuteRunbook` | services/execution-service/main.py:996-1048 | the loop over the steps against its specification, the stop and the malformed step included |
| `Runbook.StepTakesRoom` | services/execution-service/main.py:460-502 | a permitted step is dispatched exactly when there is room and takes one place |
| `Runbook.RequestsAreTheSteps` | services/execution-service/main.py:814-838 | the request a step becomes, and that it becomes none exactly without the plugin or command it needs |
| `Runbook.StepsEndForAReason` | services/execution-service/main.py:1011-1036 | the steps end at the end of the list, at something that is not a step, or with stop_on_failure at the first error, which is the last entry |
| `Runbook.ReportMeans` | services/execution-service/main.py:1038-1048 | 400 if something was not a step, and otherwise all entries, as stopped if there is an error among them and errors stop |
| `Rollout.ComputeCanaryRings` | services/execution-service/main.py:1164-1196 | the ring loop and max_rings: no plan exactly for malformed input, positive sizes otherwise, cut at max_rings |
| `Rollout.UniformPlan` | services/execution-service/main.py:1174-1182 | uniform rings sum to the fleet and number total / size rounded up |
| `Rollout.ExplicitPlan` | services/execution-service/main.py:1168-1194 | explicit sizes are kept in order, and one last ring takes the rest of the fleet unless the number of rings is limited |
| `Rollout.PositiveSum` | services/execution-service/main.py:1170-1170 | sizes that are not positive are left out one by one |
| `Rollout.RefusalsAreExplained` | services/execution-service/main.py:1168-1223 | for what a rollout is refused, and the command a function rollout gets |
| `Rollout.PlanReaches` | services/execution-service/main.py:1164-1196 | without max_rings the sizes reach the whole fleet; with it there are at most that many |
| `Rollout.SlicesArePrefix` | services/execution-service/main.py:1230-1233 | the slices of the rings concatenate to the device list as far as the sizes reach |
| `Rollout.RolloutCoversInOrder` | services/execution-service/main.py:1200-1300 | the devices attempted are a prefix of the fleet that ends at a ring boundary, all of it without max_rings and stop; only the last ring run can hold failures when stopping |
| `Rollout.RolloutOutcome` | services/execution-service/main.py:1200-1300 | over different devices each attempt succeeds exactly when its device had room before the rollout, and the rings run are those up to the first that holds a full device |
| `Rollout.RingsToRunIsFirst` | services/execution-service/main.py:1275-1287 | that ring is the first such one |
| `Rollout.RolloutToFleet` | services/execution-service/main.py:1200-1300 | the two loops against their specification, every refusal included; dispatched + failed equals the devices attempted |
| `Shadow.DeltaIsExact` | services/device-service/src/device_service/api/shadow.py:46-51 | in every reachable state, over all three writers, the desired half holds no top-level null, the cached delta is exactly the desired entries missing from or different in reported, and the version counts the updates |
| `Shadow.LastPatchWins` | services/device-service/src/device_service/api/shadow.py:130-143 | each desired key has the value of the last patch naming it, and is absent if that was null or there is none |
| `Shadow.LastReportWins` | services/device-service/src/device_service/api/shadow.py:175-187 | each reported key reads as the last report or heartbeat naming it says, and holds a null exactly when the last heartbeat naming it since the last report set it to null |
| `Shadow.AnnouncesExactly` | services/device-service/src/device_service/api/shadow.py:196-206 | what an update tells: out of sync, exactly the new version and what is missing; in sync, the new version if it was reported, and nothing otherwise |
| `Shadow.TimesAreUpdates` | services/device-service/src/device_service/api/shadow.py:138-143 | the time of each half is that of its last update |
| `Shadow.HeartbeatLeavesNull` | services/device-service/src/device_service/services/device_service.py:360-384 | a heartbeat that sets a key to null leaves the null, where the reported endpoint removes the key |
| `Shadow.HeartbeatSyncsSilently` | services/device-service/src/device_service/services/device_service.py:374-392 | a heartbeat carrying the delta empties it, but no heartbeat ever publishes synced |
| `Shadow.ReportingDeltaConverges` | services/device-service/src/device_service/api/shadow.py:175-208 | reporting the delta empties it and publishes synced if and only if nothing desired is NaN |
| `Shadow.NaNNeverSyncs` | services/device-service/src/device_service/api/shadow.py:46-51 | reporting a desired NaN leaves it in the delta for ever |
| `Shadow.UpdatesCommute` | services/device-service/src/device_service/api/shadow.py:116-208 | adjacent updates of the desired and the reported half commute, heartbeats included |
| `Shadow.RedeliveryIsHarmless` | services/device-service/src/device_service/api/shadow.py:116-208 | a redelivered patch or heartbeat changes only the version |
| `Shadow.Shadows.GetShadow` | services/device-service/src/device_service/api/shadow.py:95-113 | answers the stored shadow, an empty one of version 0, or 404; the delta it shows is always exact |
| `Shadow.Shadows.UpdateDesired` | services/device-service/src/device_service/api/shadow.py:117-158 | merge with null-deletion, delta, version, event |
| `Shadow.Shadows.UpdateReported` | services/device-service/src/device_service/api/shadow.py:162-208 | the same for reported, with the synced event |
| `Shadow.Shadows.AgentHeartbeat` | services/device-service/src/device_service/services/device_service.py:348-392 | the overlay that keeps nulls, delta, version and delta event; nothing for missing or empty telemetry |
| `Shadow.Shadows.DeleteShadow` | services/device-service/src/device_service/api/shadow.py:212-222 | removes the row, or finds no device |
| `Pairing.PairingIsSound` | services/device-service/src/device_service/api/discovery.py:108-131 | at most one announced discovery per hardware id; approved discoveries, devices ever paired and paired events correspond one to one; the device of an approved discovery is there unless it was deleted |
| `Pairing.GoneMeansDeleted` | services/device-service/src/device_service/services/device_service.py:202-223 | a paired device is gone exactly when a step deleted it while it was there |
| `Pairing.SettledForever` | services/device-service/src/device_service/api/discovery.py:162-178 | a discovery that is not announced never changes again |
| `Pairing.AnswerIsFinal` | services/device-service/src/device_service/api/discovery.py:147-178 | a poll answer other than announced repeats for ever with the same token and device |
| `Pairing.ExpiredForAReason` | services/device-service/src/device_service/api/discovery.py:108-131 | an expired discovery was past its deadline or superseded by a later announcement of its hardware |
| `Pairing.ApprovedInTime` | services/device-service/src/device_service/api/discovery.py:234-268 | every discovery is as it was announced; it is approved if and only if it was claimed while announced and not after its announcement plus its lifetime, and names the token, device and user of that claim |
| `Pairing.PollAfterClaim` | services/device-service/src/device_service/api/discovery.py:171-176 | a device that polls after a claim in time gets its token and device, for ever |
| `Pairing.AnnouncedBecomes` | services/device-service/src/device_service/api/discovery.py:105-324 | what each step makes of an announced discovery |
| `Pairing.AnnouncementsAdd` | services/device-service/src/device_service/api/discovery.py:119-131 | an announcement adds its discovery if and only if its id and codes are new |
| `Pairing.AnswersAreHonest` | services/device-service/src/device_service/api/discovery.py:155-178 | a poll answers the status its discovery then has, and token and device only if that is approved |
| `Pairing.RefusalsAreExplained` | services/device-service/src/device_service/api/discovery.py:234-240 | which refusal a claim and a rejection give when |
| `Pairing.Service.AnnounceDevice` | services/device-service/src/device_service/api/discovery.py:96-143 | expires what the hardware had announced and adds one discovery |
| `Pairing.Service.PollStatus` | services/device-service/src/device_service/api/discovery.py:147-178 | answers, and expires a stale discovery first |
| `Pairing.Service.Pending` | services/device-service/src/device_service/api/discovery.py:182-212 | lists the live announced ones and expires the stale ones |
| `Pairing.Service.ClaimDiscovery` | services/device-service/src/device_service/api/discovery.py:216-303 | approves, creates the device and logs the event, or refuses |
| `Pairing.Service.DeleteOne` | services/device-service/src/device_service/services/device_service.py:202-223 | removes a device, or answers 404 |
| `Pairing.Service.RejectDiscovery` | services/device-service/src/device_service/api/discovery.py:307-326 | rejects an announced discovery, or refuses |
| `Consent.LogAgrees` | services/device-service/src/device_service/api/privacy.py:134-174 | per device, target and level, granted minus revoked events equals the active consents, always 0..3; each revoked consent has exactly one revocation |
| `Consent.LookupFindsAtMostOne` | services/device-service/src/device_service/api/privacy.py:134-149 | the duplicate lookup never finds two rows |
| `Consent.RevokedStays` | services/device-service/src/device_service/api/privacy.py:208-232 | no later step changes a revoked consent |
| `Consent.OnlyOwnersWrite` | services/device-service/src/device_service/api/privacy.py:71-80 | every event of the log was written by a step of the owner of its device or of an operator, for one of the kinds and levels there are |
| `Consent.StepsTakeEffect` | services/device-service/src/device_service/api/privacy.py:129-232 | a grant or revocation takes effect exactly when such a step is taken |
| `Consent.RefusalsAreExplained` | services/device-service/src/device_service/api/privacy.py:71-80 | which refusal a grant and a revocation give when |
| `Consent.Service.GrantConsent` | services/device-service/src/device_service/api/privacy.py:119-192 | the checks in order, the new row and its event |
| `Consent.Service.RevokeConsent` | services/device-service/src/device_service/api/privacy.py:196-234 | the checks in order, the flipped flag and its event |
| `FunctionRuntime.RegistryMatchesDisk` | services/nexora-function-runtime/main.py:75-82 | after any run the registry is what a reload would rebuild, whatever the order of the files; each checksum is the hash of the stored bytes |
| `FunctionRuntime.OnlyVerifiedIsInstalled` | services/nexora-function-runtime/main.py:179-211 | each listed function and its stored bytes come from one installation, whose checksum held if it expected one |
| `FunctionRuntime.InstallSucceedsIff` | services/nexora-function-runtime/main.py:135-221 | an installation succeeds exactly when its artifact is fetched with the checksum it expects and its file names fit; a mismatch changes nothing |
| `FunctionRuntime.RemovalIsComplete` | services/nexora-function-runtime/main.py:273-283 | a removal leaves nothing of its function and everything of the others |
| `FunctionRuntime.StepsArePossible` | services/nexora-function-runtime/main.py:60-289 | every step is possible in every state and leads to one state |
| `FunctionRuntime.WidthIsLeast` | services/nexora-function-runtime/main.py:85-90 | a character of a file name takes the least number of UTF-8 bytes that holds it |
| `FunctionRuntime.OrphansAreLongNames` | services/nexora-function-runtime/main.py:187-211 | an artifact without metadata is there if and only if an installation reached the metadata of an id too long for that name only |
| `FunctionRuntime.LongNameLeavesOrphan` | services/nexora-function-runtime/main.py:85-90 | an id of 246 to 250 bytes leaves its artifact and is not listed; a longer one leaves nothing |
| `FunctionRuntime.RestartsAreInvisible` | services/nexora-function-runtime/main.py:60-82 | the same run without its restarts ends in the same state |
| `FunctionRuntime.CountsAreExact` | services/nexora-function-runtime/main.py:236-269 | each invocation count is the number of completed invokes since the last install |
| `FunctionRuntime.LastInvocationIsShown` | services/nexora-function-runtime/main.py:252-259 | the time of the last completed invocation since the installation, and its error output if and only if it ended with another code than 0 |
| `FunctionRuntime.InvocationCompletesIff` | services/nexora-function-runtime/main.py:236-249 | in every reachable state an invocation completes if and only if the function is listed and its execution ends |
| `FunctionRuntime.RefusalsAreExplained` | services/nexora-function-runtime/main.py:153-185 | which refusal an installation gives when |
| `FunctionRuntime.Daemon.InstallFunction` | services/nexora-function-runtime/main.py:135-221 | writes the two files and the registry entry, or refuses |
| `FunctionRuntime.Daemon.InvokeFunction` | services/nexora-function-runtime/main.py:225-269 | counts a completed invocation in memory and on disk |
| `FunctionRuntime.Daemon.RemoveFunction` | services/nexora-function-runtime/main.py:273-289 | removes the entry and both files |
| `FunctionRuntime.Daemon.RestartProcess` | services/nexora-function-runtime/main.py:60-82 | rebuilds the registry from the files |
| `Escalation.SeverityIsExact` | services/ai-pipeline-service/src/ai_pipeline_service/core/analyzer.py:40-55 | whatever the clock does and however long summaries take, an insight is critical if and only if it is a breach or failure and, with its predecessors created since a window before its own analysis, reaches the threshold |
| `Escalation.EscalationWindow` | services/ai-pipeline-service/src/ai_pipeline_service/core/analyzer.py:20-55 | while the clock does not turn back: of the insights of one device and watched category created within one window at most threshold - 1 are warnings, and each that comes after threshold - 1 others of them is critical |
| `Escalation.AgreesWithCreationIff` | services/ai-pipeline-service/src/ai_pipeline_service/core/events.py:38-47 | the severity is the one of the window that ends at the creation if and only if the insights created between the two window starts do not carry the smaller count over the threshold; where they do it is too high with a slow summary and too low with a clock that turned back |
| `Escalation.InstantSummariesAreExact` | services/ai-pipeline-service/src/ai_pipeline_service/core/events.py:34-49 | so it always is when the summary takes no time |
| `Escalation.SlowSummaryEscalatesEarly` | services/ai-pipeline-service/src/ai_pipeline_service/core/events.py:38-47 | too high: critical with one insight in its window and a threshold of two |
| `Escalation.ClockBackHidesBreach` | services/ai-pipeline-service/src/ai_pipeline_service/core/events.py:38-47 | too low: with a clock that turns back, two warnings in one window and a threshold of two |
| `Escalation.EventsAreRecorded` | services/ai-pipeline-service/src/ai_pipeline_service/core/events.py:34-49 | which events are recorded, for which tenant and device, in which category and with which severity and times; every other event stores nothing |
| `Escalation.ViolationsAreRecorded` | services/ai-pipeline-service/src/ai_pipeline_service/core/events.py:34-49 | an event adds one to the count of its own device and category and to no other |
| `Escalation.OthersDo` | services/ai-pipeline-service/src/ai_pipeline_service/api/insights.py:158-212 | a manual analysis adds one informational summary, a status change touches one status |
| `Escalation.AnalyzeEvent` | services/ai-pipeline-service/src/ai_pipeline_service/core/analyzer.py:40-171 | a breach or failure is critical exactly when it and the recent ones of its device and category reach the threshold; nothing else is ever critical, and only telemetry anomalies are informational |
| `Escalation.CountIgnoresStatus` | services/ai-pipeline-service/src/ai_pipeline_service/core/analyzer.py:20-37 | acknowledging or resolving an insight does not change any count |
| `Escalation.Pipeline.ProcessEvent` | services/ai-pipeline-service/src/ai_pipeline_service/core/events.py:34-49 | one event, with other handlers running while its summary is awaited, is a run of the steps; what is stored last is what the analysis found |
| `Escalation.Pipeline.TransitionStatus` | services/ai-pipeline-service/src/ai_pipeline_service/api/insights.py:158-170 | changes the status of one insight, or answers 404 |
| `Risk.FleetScoreBounds` | services/ai-pipeline-service/src/ai_pipeline_service/core/risk.py:113-134 | least score <= rounded mean <= fleet score <= worst <= 100, the cap never acts, and off ties the score is the integer nearest to 0.7 mean + 0.3 worst |
| `Risk.RaisingNeverLowers` | services/ai-pipeline-service/src/ai_pipeline_service/core/risk.py:117-122 | raising members' scores never lowers the fleet's score or level |
| `Risk.ResolvingNeverRaises` | services/ai-pipeline-service/src/ai_pipeline_service/core/risk.py:23-58 | resolving an insight never raises a device's score or level |
| `Risk.ResolvingCalmsTheFleet` | services/ai-pipeline-service/src/ai_pipeline_service/core/risk.py:113-134 | nor any fleet's, end to end |
| `Risk.NewInsightWeighs` | services/ai-pipeline-service/src/ai_pipeline_service/core/risk.py:24-29 | a new insight adds its weight and takes away that of the row it pushes out of the newest 50 |
| `Risk.HistoryIsOwn` | services/ai-pipeline-service/src/ai_pipeline_service/core/risk.py:24-29 | the history of a device is its own insights and no others |
| `Risk.OthersDoNotCount` | services/ai-pipeline-service/src/ai_pipeline_service/core/risk.py:24-29 | an insight of another device does not change a score |
| `Risk.StatusCosts` | services/ai-pipeline-service/src/ai_pipeline_service/core/risk.py:31-41 | 30 for an offline device, 15 for an unknown status, 10 without the capability, nothing without an answer |
| `Risk.EmptyFleet` | services/ai-pipeline-service/src/ai_pipeline_service/core/risk.py:123-124 | an empty fleet scores 20, which is low |
| `Risk.NewInsightLowersIff` | services/ai-pipeline-service/src/ai_pipeline_service/core/risk.py:24-58 | the exact condition under which a new insight lowers a device's score |
| `Risk.NewInsightCanLower` | services/ai-pipeline-service/src/ai_pipeline_service/core/risk.py:24-29 | a device with one critical insight and 49 resolved ones goes from 25 to 4 with an informational one |
| `Risk.RoundingIsNearest` | services/ai-pipeline-service/src/ai_pipeline_service/core/risk.py:120-122 | round goes to the nearest integer, to the even one on ties |
| `Risk.LevelCountsThresholds` | services/ai-pipeline-service/src/ai_pipeline_service/core/risk.py:13-20 | the rank of a level is the number of thresholds the score has reached |
| `Risk.LevelKeepsOrder` | services/ai-pipeline-service/src/ai_pipeline_service/core/risk.py:13-20 | a higher score never has a lower level |
| `Risk.ComputeDeviceRisk` | services/ai-pipeline-service/src/ai_pipeline_service/core/risk.py:23-66 | the loop against its specification: score in 0..100, level, and exactly the reasons that hold |
| `Risk.WeighFleet` | services/ai-pipeline-service/src/ai_pipeline_service/core/risk.py:119-124 | the fleet arithmetic as written, and 20 for an empty fleet |
| `Risk.Scorer.ComputeAndStoreFleetRisk` | services/ai-pipeline-service/src/ai_pipeline_service/core/risk.py:113-134 | scores every member in order and stores the fleet's row only |
| `Risk.Scorer.ComputeAndStoreDeviceRisk` | services/ai-pipeline-service/src/ai_pipeline_service/core/risk.py:108-110 | stores the device's row and no other |

## Left out

- The gateway's Redis mode, expiry times and the fallback to memory: with Redis the replay
  runs before the subscription, and a fallback splits the store, so the push properties are
  those of the in-memory mode.
- Overlapping calls of `deliver` for one execution, and `deliver` racing an acknowledgement:
  a retry stores the dispatch again after its sleep, and outcomes are then not exclusive.
- CommandPath.AcknowledgedMeansExecuted: without calls of `deliver`, whose conclusion removes
  a dispatch that no agent has executed; and without agent crashes.
- Tunnel.ResultsAreConserved: without crashes of the agent process, task cancellation and
  SQLite failures; the same holds for the telemetry and queue results.
- Gateway.NoMissedPush: "handed to" is a send attempted on the socket; what the socket then
  does with it is the network's part, which `CommandPath` lets lose messages.
- Malformed Kafka messages, whose error ends the gateway's consumer loop.
- `deploy_function_to_fleet`: it calls two handlers without an argument they require.
- Executions.Store.DispatchExecution: the published envelope and its plugin data are not
  modelled; the branch where a lookup fails after the status was committed is.
- Executions.Store.FireTrigger: the filter of a trigger, and events whose payload is not an
  object.
- Interleaved shadow updates, claims and consents: each of these handlers is one serialised
  step here, while the program suspends between its read and its commit.
- The pairing client of the agent, whose announcement and `denied` status do not match the
  server; pairing over Matter; the Matter cluster view of a shadow.
- Executions.QuotaAndKeys: trigger-made executions count towards the check but are not
  bounded by it, as in the program; the owner, tenant, argument and time fields of a row that
  no property mentions are not modelled, and the guardrails policy is a parameter. Device names are
  strings; any other falsy value, such as the number 0, skips the check as the empty name does.
- Rollouts and runbooks: errors other than the HTTP errors the loops catch, such as ring
  sizes that are not numbers; other requests interleaved with the loop.
- Shadow.ReportingDeltaConverges: booleans are the numbers they compare equal to, infinities
  and NaN nested inside lists or objects are not modelled.
- Shadow.Shadows.UpdateDesired: with a NaN in the document the update is committed and the
  event published as modelled, but the reply cannot be rendered as JSON and the caller gets
  an error; the same holds for `UpdateReported` and `GetShadow`.
- FunctionRuntime.RegistryMatchesDisk: ids are strings. The installation takes any JSON
  value, and the number 5 beside the text "5" makes two entries over one metadata file.
- Function ids with a path separator that reach an existing directory; files damaged or
  added by hand; running the WebAssembly itself, whose result is a parameter.
- Escalation.EscalationWindow: the clock does not turn back between an analysis and a later
  storing; events are taken one at a time, as the consumer does;
  created times keep their full resolution, while MySQL may round them; messages that are
  not objects, fields of an unexpected type, titles, evidence other than the repeat count,
  recommendations and the enrichment of insights are not modelled.
- Risk.FleetScoreBounds: doubles are any rounding that is monotone, exact on small integers
  and close on small reals; on an exact tie of the blend the direction is left open.
- The newest 50 insights are the last 50 stored, which the program reads from creation
  times: the same unless the clock turns back, and up to the order of equal times.
- Pairing.PairingIsSound: device ids are uuids, and one is not drawn twice.
- The number of queued rows, which the agent only reports.
- Session registration and heartbeats at the gateway, the reconnect backoff, drift analysis,
  triggers' filters, and all HTTP, Kafka, MQTT, SQL, JWT, metrics, logging and model calls.
