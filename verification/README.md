# Gateway simulator: a verified model

The simulator backend runs one worker per simulated gateway. Commands come in over
JetStream, pass a subscriber and a pump, and reach the worker, which also publishes
telemetry on a ticker, obeys injected anomalies and outliers, and writes through to
SQLite. A registry provisions gateways in a compensated saga, restores them after a
restart, and takes them down again. This project models that runtime in Dafny, with
the schema migrations and the AsyncAPI filter script, and proves what holds in all runs.

| part | files |
|---|---|
| Shared types | `Domain.dfy` |
| Command pipeline | `PipelineModel.dfy`, `PipelineProofs.dfy`, `CommandPump.dfy`, `StaleCommands.dfy` |
| Worker | `WorkerModel.dfy`, `WorkerProofs.dfy`, `WorkerEffects.dfy`, `WorkerTelemetry.dfy`, `WorkerAnomalies.dfy`, `WorkerFrequency.dfy`, `WorkerRefusals.dfy`, `WorkerOutliers.dfy`, `GatewayWorker.dfy`, `Generators.dfy` |
| Message buffer | `BufferModel.dfy`, `BufferProofs.dfy`, `BufferOutcomes.dfy`, `MessageBuffer.dfy`; with the worker, `Telemetry.dfy` |
| Registry, interleaved | `RegistryModel.dfy`, `RegistryProofs.dfy`, `RegistrySteps.dfy`, `RegistryResults.dfy`, `RegistryRows.dfy`, `RegistryCauses.dfy` |
| Registry, operation by operation | `RegistryOps.dfy`, `RegistryOpsProofs.dfy`, `RegistryEffects.dfy`, `GatewayRegistry.dfy` |
| Sensors racing with a creation | `SensorRaces.dfy` |
| AsyncAPI filter | `Json.dfy`, `RefClosure.dfy`, `RefPaths.dfy`, `SpecFilter.dfy`, `FilterKeeps.dfy`, `FilterProofs.dfy`, `FilterReferences.dfy`, `FilterLosses.dfy`, `FilterLossesV3.dfy` |
| Migrations | `Migrations.dfy` |

Each imperative part appears twice: as a class or method with the source's loops and
updates, and as functions on values that its contract ties it to. Lemmas about all runs
are proved on the values, and so are the laws that say what each operation does without
naming the functions that do it: `WorkerEffects`, `WorkerTelemetry`, `BufferOutcomes`,
`RegistryEffects` and `FilterKeeps`. Failures of the store, the connector, encryption and
publication, random draws, clock readings and the choice between ready channels are
arguments, so a statement about all arguments covers every pattern of them.

The registry is modelled at two grains. `RegistryModel` has one step per atomic action,
run by any number of threads in any order, and history fields that say which thread or
worker answers for a row or a connection. `RegistryOps` has one step per completed
operation, with sensors, frequencies and rows in full.

Places where the promise is narrower than it looks:

- A config command that is refused may have changed the store already
  (`internal/app/worker.go:384-401`). `RefusedKeepsRow` says exactly when it has,
  `RefusedFrequencyStays` and `RefusedStatusStays` are two such runs. When stored and
  running frequency agree is `StoredFrequencyIsPending`, over all sources of updates;
  `CommandKeepsAgreement` is the part that a single command has in it.
- The filter follows a reference to any depth but prunes by references of exactly a
  section and a name, and it splits references at every slash but matches them as whole
  strings (`scripts/filter-asyncapi.mjs:72-97`). So a reference can be lost from what is
  kept. `FateV2` and `FateV3` give the fate of every reference, `ComponentReferencesV2`,
  `ReachedReferencesV2` and their v3 counterparts say exactly which forms are safe, and
  `DeepInput` is one that is not.
- The contract asks for commands older than 60 seconds to be discarded
  (`api-contracts/asyncapi/nats-contracts.yaml:424`). The code checks the age on arrival
  only, and the model follows the code: `StaleCommandRuns` is a run that answers a stale
  command, `StaleForSure` and `StaleExactly` say when a held command is stale. The model
  reads the clock at deliveries and ticks, so the time a command waits in a channel while
  no anomaly holds it is not measured.
- A sensor added while its gateway is being created can miss the worker or reach it twice
  (`internal/app/registry.go:228-248` and `:439-447`); `WorkerMatchesStoreExactly` says
  exactly when it does not.

`INT64_LIMIT < t1` in `AnomalyLifetime` says that the clock reads a date after the year
293, counted in nanoseconds from Go's zero time: below that a negative duration could
reach the zero time, which means "never expires".

## Model

| member | source | states |
|---|---|---|
| `PipelineProofs.StepRefines` | internal/app/registry.go:505-523 | Each delivery, pump step and worker step is one step of a single lossy FIFO queue (accept, lose, answer some from the front) or no step at all |
| `PipelineProofs.RunRefines` | internal/app/registry.go:505-523 | In every interleaving the pipeline's abstraction is the queue that the same actions produce, and every action was enabled: a command is only lost with ten others ahead of it |
| `PipelineProofs.RunAccounts` | internal/adapters/nats/subscriber.go:54-99 | In every interleaving the accepted commands without the lost ones equal, in order, answered ++ anomaly buffer ++ commandCh ++ the pump's hand ++ subscriber channel; every accepted command was at most 60 s old on arrival and no channel exceeds its capacity |
| `PipelineProofs.LossOnlyWhenFull` | internal/app/registry.go:515-520 | The step behind RunAccounts: one loses a command exactly when the pump forwards one while commandCh holds 10, then the one in its hand, which was not lost before; no other step does |
| `PipelineProofs.LossesCounted` | internal/app/registry.go:515-520 | In every run exactly as many commands are lost as there were forwards into a commandCh that held ten |
| `PipelineProofs.TtlExact` | internal/adapters/nats/subscriber.go:63 | Go's saturating duration arithmetic makes the age test agree with the exact difference for all instants |
| `PipelineProofs.EveryDeliveryDisposed` | internal/adapters/nats/subscriber.go:54-99 | In every run each delivery was accepted, expired, refused for redelivery or terminated, and only one of these |
| `PipelineProofs.DeliveryExact` | internal/adapters/nats/subscriber.go:54-99 | One delivery, by the message, its age against 60 s and the room against 8: nothing else in the pipeline changes |
| `PipelineProofs.PumpRound` | internal/app/registry.go:508-520 | With its hand free and room in commandCh, two steps of the pump move the oldest waiting command to the end of commandCh |
| `PipelineModel.Dispose` | internal/adapters/nats/subscriber.go:54-99 | Exactly one of the four dispositions for every message, age and room, each as an if and only if |
| `CommandPumps.GatewaySubscriber.HandleMsg` | internal/adapters/nats/subscriber.go:54-99 | Terminated if and only if the payload does not decode; rejected if and only if it decodes and is older than 60 s; accepted if and only if it is fresh and fewer than 8 wait; refused for redelivery if and only if it is fresh and 8 wait; and what each does to channel and records |
| `CommandPumps.CommandPump.Deliver` | internal/adapters/nats/subscriber.go:54-99 | One delivery on the object is one step of the pipeline, with the same disposition |
| `CommandPumps.CommandPump.ReceiveMessage` | internal/app/registry.go:508-515 | Taking a message moves it from the subscriber's channel into the pump's hand |
| `CommandPumps.CommandPump.ForwardMessage` | internal/app/registry.go:516-520 | The non-blocking hand-over, with exactly the dropped position recorded as lost |
| `CommandPumps.CommandPump.Exit` | internal/app/registry.go:510-511 | A cancelled pump stops and loses nothing |
| `StaleCommands.StaleCommandRuns` | internal/adapters/nats/subscriber.go:63 | A run in which a command accepted one second after it was issued is held by a disconnect and answered five minutes after it was issued |
| `StaleCommands.AnsweredByFirstLate` | internal/app/worker.go:244-265 | Under an anomaly with a deadline that is not replaced, a held command is answered by the first tick whose expiry check reads the deadline or later, and by no other step |
| `StaleCommands.StaleExactly` | internal/app/worker.go:244-265 | It is then older than 60 s exactly when that tick's expiry check comes more than 60 s after it was issued |
| `StaleCommands.StaleForSure` | internal/app/worker.go:353-357 | Told while it is held: whatever happens next short of another anomaly, it will be older than 60 s whenever it runs, if and only if the anomaly's deadline is more than 60 s after it was issued |
| `StaleCommands.FirstLateAnswers` | internal/app/worker.go:259-265 | The answering tick answers everything held by then, in order, after nothing was answered since |
| `WorkerProofs.RunKeepsHolding` | internal/app/worker.go:192-196 | In every run: no active anomaly means an empty anomaly buffer, no reply is sent while an anomaly is active, and an envelope is handed over only with no disconnect active and the gateway neither paused nor offline |
| `WorkerProofs.TickState` | internal/app/worker.go:244-257 | A tick clears the anomaly in force after draining exactly when it is due, empties the held commands exactly then, and leaves the rest of the queues alone |
| `WorkerProofs.TickAnswers` | internal/app/worker.go:259-265 | The tick that clears an anomaly answers every held command once, in arrival order; no other tick answers anything |
| `WorkerProofs.StepConserves` | internal/app/worker.go:353-361 | No step loses, duplicates or reorders a received command; an offer adds its command at the end exactly when commandCh has room |
| `WorkerProofs.CommandState` | internal/app/worker.go:353-361 | Receiving a command answers it at once or, during an anomaly, holds it as the last one |
| `WorkerEffects.StartedExact` | internal/app/worker.go:86-103 | A new worker has its row's frequency and status, empty queues and no outlier armed; its ticker runs at that frequency, or the loop waits for a positive one |
| `WorkerEffects.SendsExact` | internal/app/registry.go:281-351 | Each client's send goes to the end of its channel of ten if there is room, and changes nothing else |
| `WorkerEffects.AttachExact` | internal/app/worker.go:105-116 | A sensor with a proper range is attached at the end with nothing armed, any other is not |
| `WorkerEffects.TickTakesConfig` | internal/app/worker.go:199-213 | A tick takes one waiting update: frequency, with its period, and status take effect at once; a frequency that is not positive voids both |
| `WorkerEffects.ConfigTurnExact` | internal/app/worker.go:175-183 | Without a ticker the first positive frequency starts it; the status is lost |
| `WorkerEffects.TickTakesAnomaly` | internal/app/worker.go:318-338 | A tick takes one waiting anomaly, which replaces the one in force with its own kind, deadline and, for a degradation, loss, read as a percentage above 1 |
| `WorkerEffects.TickKeepsAnomaly` | internal/app/worker.go:244-257 | With none waiting the one in force stays as it is until its deadline |
| `WorkerEffects.AcceptedTakesEffect` | internal/app/worker.go:374-402 | An accepted config command has stored the frequency and the status it carries, and queued itself |
| `WorkerEffects.OtherCommandsExact` | internal/app/worker.go:363-419 | A firmware command with a version is accepted exactly if the store takes it, and then that version is stored; an empty one is accepted and does nothing; malformed and unknown commands are refused |
| `WorkerEffects.AnswerExact` | internal/app/worker.go:353-372 | Every command that runs is answered by exactly one reply, with its own status |
| `WorkerTelemetry.PublishExact` | internal/app/worker.go:267-316 | While silenced nothing is drawn or sent. Otherwise the log gains, for each sensor in order, its value, and directly after it, if and only if sealing succeeds and no degradation loses it, the envelope with that same value, anomaly and status; and nothing else |
| `WorkerTelemetry.TickTelemetry` | internal/app/worker.go:192-196 | The same for a whole tick, under the anomaly and status that the tick itself leaves in force, after the outliers it arms and the replies it sends |
| `WorkerTelemetry.OneSensorSends` | internal/app/worker.go:286-316 | One sensor, no anomaly, online, sealing succeeds: each tick hands one envelope to the buffer |
| `WorkerAnomalies.InForceUntilDeadline` | internal/app/worker.go:244-257 | Unless replaced, an anomaly is in force until the first tick whose expiry check reads a time at or after its deadline, and gone from then on |
| `WorkerAnomalies.AnomalyLifetime` | internal/app/worker.go:318-338 | Picked up at t1 with duration d and not replaced, an anomaly is in force after any run exactly while no expiry check has reached t1 + d; with d <= 0 it is gone before that tick publishes; without parameters it never expires |
| `WorkerAnomalies.SecondsFit` | internal/app/worker.go:324 | A duration in seconds survives the 64-bit conversion to nanoseconds exactly in the range -9223372036 to 9223372036 |
| `WorkerFrequency.StoredFrequencyIsPending` | internal/app/worker.go:374-402 | In every run the stored frequency is the worker's frequency folded over the pending updates exactly when the last one stored equals the last one queued, in particular whenever every one was both stored and queued |
| `WorkerFrequency.CommandKeepsAgreement` | internal/app/worker.go:380-401 | A config command breaks that agreement if and only if it persists a different frequency and is then refused, by a failing status write or a full configCh |
| `WorkerFrequency.RefusedCommandDiverges` | internal/app/worker.go:389-401 | A concrete run in which the two diverge: the status write fails after the frequency was stored |
| `WorkerFrequency.RunKeepsFrequency` | internal/app/worker.go:198-213 | In every run the fold of the pending updates equals the last frequency queued; non-positive updates are identities of the fold |
| `WorkerRefusals.RefusedKeepsRow` | internal/app/worker.go:363-419 | A refused command of any kind leaves queues, frequency and status of the worker alone, and its stored row too, if and only if no new frequency or status of it had been written successfully before the refusal |
| `WorkerRefusals.AcceptedExactly` | internal/app/worker.go:374-402 | A config command is accepted exactly when the frequency is positive, both writes succeed and configCh has room |
| `WorkerRefusals.RefusedFrequencyStays` | internal/app/worker.go:384-393 | A run that refuses a command because its status cannot be stored, with the new frequency stored |
| `WorkerRefusals.RefusedStatusStays` | internal/app/worker.go:389-401 | A run that refuses a status change because configCh is full, with the new status stored |
| `WorkerFrequency.ExpiryAcceptsFirst` | internal/app/worker.go:259-265 | With a healthy store a flush that meets n well-formed updates and f free slots accepts exactly the first min(n, f) of them, refuses the others, and answers firmware, unknown and malformed commands on their own terms, for any mix |
| `WorkerFrequency.FlushQueues` | internal/app/worker.go:395-401 | The updates such a flush puts into configCh, in order |
| `WorkerFrequency.FlushReplies` | internal/app/worker.go:259-262 | The replies such a flush sends, one per held command, in order |
| `WorkerFrequency.RunKeepsTicker` | internal/app/worker.go:152-190 | In every run exactly one of ticker and configCh drives the loop, the ticker's period is that of the current frequency, and a gateway that starts with a positive frequency keeps one, stored and running |
| `WorkerFrequency.PeriodExact` | internal/app/worker.go:160 | The period of a positive frequency is exact if and only if it is at most 9223372036854 ms; one more makes it negative |
| `WorkerFrequency.RunNeverPanics` | internal/app/worker.go:206-207 | No ticker creation or reset ever panics while all frequencies handed to the worker stay within that bound |
| `WorkerOutliers.RunKeepsCells` | internal/app/worker.go:221-241 | In every run each override cell holds the outlier armed last and not yet emitted, through any number of silent ticks, and every emitted value is that outlier or else a base value |
| `WorkerOutliers.SuppliesOnce` | internal/generator/spike.go:30-34 | Each armed outlier supplies at most one emission |
| `WorkerOutliers.DrainArms` | internal/app/worker.go:221-241 | A tick empties outlierCh and arms, in order, each command whose sensor is known, with twice the maximum as the default value |
| `WorkerEffects.OutlierArms` | internal/app/worker.go:221-241 | An outlier arms the first sensor with its ID, with its value or twice that sensor's maximum |
| `WorkerEffects.UnknownOutlierDropped` | internal/app/worker.go:226-235 | One for an unknown sensor changes nothing |
| `Generators.BaseValueRange` | internal/generator/spike.go:36-44 | A base value leaves [min, max] exactly when the spike algorithm rolls a spike, and then lies outside by 1.5 times the width; uniform, sine and constant values never leave it |
| `Generators.BaseValueReaches` | internal/generator/spike.go:36-44 | A uniform and a sine sensor show any value of the range for the draw that stands at its place, a constant one the middle; a spike goes above or below the range as its second draw says |
| `Generators.Generator.Next` | internal/generator/spike.go:26-45 | The override if there is one, which is then cleared; else the base value |
| `Generators.Generator.InjectOutlier` | internal/generator/spike.go:47-51 | The override is replaced |
| `GatewayWorkers.GatewayWorker.constructor` | internal/app/worker.go:86-103 | A new worker is in the state machine's initial state for its row and sensors |
| `GatewayWorkers.GatewayWorker.ProcessTick` | internal/app/worker.go:192-196 | One tick of the object is one tick of the state machine |
| `GatewayWorkers.GatewayWorker.DrainControlChannels` | internal/app/worker.go:198-242 | At most one config update, at most one anomaly, all outliers |
| `GatewayWorkers.GatewayWorker.DrainConfigChannel` | internal/app/worker.go:199-213 | Rejected frequency: nothing happens, the status part is skipped as well |
| `GatewayWorkers.GatewayWorker.HandleAnomalyCommand` | internal/app/worker.go:318-338 | The new anomaly replaces the old, loss above 1 read as a percentage |
| `GatewayWorkers.GatewayWorker.DrainOutlierChannel` | internal/app/worker.go:221-241 | The loop arms what the state machine arms |
| `GatewayWorkers.GatewayWorker.InjectOutlier` | internal/app/worker.go:226-235 | Only the first sensor with the id is armed, no other generator changes |
| `GatewayWorkers.GatewayWorker.CheckAnomalyExpiry` | internal/app/worker.go:244-257 | Expiry, then flush, as in the state machine |
| `GatewayWorkers.GatewayWorker.FlushBufferedCommands` | internal/app/worker.go:259-265 | The loop answers the held commands in order and empties the buffer |
| `GatewayWorkers.GatewayWorker.HandleIncomingCommand` | internal/app/worker.go:353-361 | Hold or answer |
| `GatewayWorkers.GatewayWorker.ProcessIncomingCommand` | internal/app/worker.go:363-372 | Dispatch by type, unknown types refused |
| `GatewayWorkers.GatewayWorker.HandleConfigUpdateCommand` | internal/app/worker.go:374-402 | Store frequency, store status, queue, refusing at the first failure and undoing nothing |
| `GatewayWorkers.GatewayWorker.HandleFirmwarePushCommand` | internal/app/worker.go:404-419 | An empty version is accepted without a store call |
| `GatewayWorkers.GatewayWorker.PublishSensorData` | internal/app/worker.go:267-278 | The loop over the sensors does what the state machine's publishing does, which PublishExact spells out |
| `GatewayWorkers.GatewayWorker.SendSensorTelemetry` | internal/app/worker.go:286-316 | One sensor's turn: a value is drawn even if sealing fails or the packet is lost, and what reaches the buffer is what EmissionsShow says |
| `GatewayWorkers.GatewayWorker.Attach` | internal/app/worker.go:105-116 | Sensors and generators stay aligned; an empty range is refused |
| `GatewayWorkers.GatewayWorker.TryCommand` | internal/app/registry.go:516-520 | The non-blocking send into commandCh |
| `GatewayWorkers.GatewayWorker.ReceiveCommand` | internal/app/worker.go:184-185 | The loop's command branch |
| `GatewayWorkers.GatewayWorker.ReceiveConfig` | internal/app/worker.go:175-183 | The loop's config branch, live only without a ticker; it drops the status |
| `BufferProofs.RunAccounts` | internal/app/buffer.go:28-64 | For capacity >= 1, in every interleaving of one producer with Flush: sends = published + publish errors + counted drops + buffered + in Flush's hand + the one under way; publication order is a subsequence of sending order; the length never exceeds the capacity; nothing is discarded uncounted |
| `BufferProofs.NewestKeptIffCapacity` | internal/app/buffer.go:41-45 | The last default branch is unreachable in every run if and only if the capacity is positive |
| `BufferProofs.ProducerKeepsNewest` | internal/app/buffer.go:28-46 | With no consumer the channel holds exactly the last `capacity` payloads sent and all others are counted as dropped |
| `BufferProofs.WithIsSubsequence` | internal/app/buffer.go:50-60 | The payloads of one fate are a subsequence of those sent |
| `BufferProofs.StepKeeps` | internal/app/buffer.go:28-64 | Every micro-step keeps the accounting invariant |
| `BufferOutcomes.OutcomesExact` | internal/app/buffer.go:28-64 | In every run, told on the events: the published payloads are those in hand at the publications that succeeded, in order; the errors are the publications that failed with a payload in hand; the drops are the second selects that found one to discard |
| `BufferOutcomes.ChannelSteps` | internal/app/buffer.go:28-64 | What each channel operation of Send and Flush does to channel, hand and stage |
| `BufferOutcomes.FlushDrains` | internal/app/buffer.go:50-63 | With the producer pausing and publication succeeding, Flush publishes the whole channel, oldest first |
| `MessageBuffers.MessageBuffer.Send` | internal/app/buffer.go:28-48 | Three non-blocking channel operations, with arbitrary Flush activity between them, are the corresponding run of micro-steps |
| `MessageBuffers.MessageBuffer.DropOldest` | internal/app/buffer.go:34-38 | The second select is one micro-step |
| `MessageBuffers.MessageBuffer.Retry` | internal/app/buffer.go:41-45 | The third select is one micro-step |
| `MessageBuffers.MessageBuffer.FlushStep` | internal/app/buffer.go:50-63 | One step of the Flush goroutine |
| `Telemetry.OnlyOlderEnvelopes` | internal/app/buffer.go:50-63 | In every run of worker and buffer: while a disconnect stays in force, every payload published by then had been handed over before it, when no disconnect was in force and the gateway was neither paused nor offline |
| `Telemetry.NothingHandedMeanwhile` | internal/app/worker.go:267-284 | Through any actions that leave the disconnect in force no envelope is handed over |
| `Telemetry.ActsKeep` | internal/app/worker.go:315 | The buffer is given exactly the envelopes handed over, in order and each once |
| `RegistrySteps.StepKeeps` | internal/app/registry.go:139-598 | Every atomic step of provisioning, compensation, restoration, deletion, decommission, stop, start, pump exit and crash keeps the invariant that ties worker map, store, connections and threads together |
| `RegistrySteps.RunKeeps` | internal/app/registry.go:393-456 | That invariant in every reachable state, for every interleaving and every pattern of failures, with RestoreAll run only at start-up |
| `RegistryResults.RegisteredUnderOwnId` | internal/app/registry.go:525-527 | A registered worker sits under its own management ID and its row is live in the store with that identity |
| `RegistryResults.RowsNotShared` | internal/app/registry.go:172-195 | No two workers that are registered or being torn down share a row id |
| `RegistryResults.RegistrationAdds` | internal/app/registry.go:525-527 | Registration never overwrites a worker: the ID is free and the map grows by one |
| `RegistryResults.ScanOrderIrrelevant` | internal/app/registry.go:326-334 | The scan for a sensor's worker finds the same one for any order of the map, and finds one exactly when a registered worker has the row |
| `RegistryResults.ClosedAtMostOnce` | internal/app/worker.go:129-146 | Under any racing of Delete, HandleDecommission, Stop and Start each worker leaves the map at most once and its subscription, publisher and connection are each closed at most once |
| `RegistryResults.ConnsNotShared` | internal/app/registry.go:487-497 | No two workers ever share a connection |
| `RegistryResults.NothingLeaks` | internal/app/registry.go:458-475 | Once all threads have ended every connection belongs to one worker, with publisher and connection closed together once or not at all, or was closed once by the failed saga that opened it |
| `RegistryResults.RemovedByOwnTenant` | internal/app/registry.go:551-561 | Only a deletion or a decommission for the worker's own tenant ever takes it out of the map |
| `RegistryResults.OtherTenantIgnored` | internal/app/registry.go:551-559 | The step behind StaysRegistered: a decommission for another tenant changes nothing but its own thread |
| `RegistryResults.StaysRegistered` | internal/app/registry.go:551-561 | Through any run without a crash, a deletion or a decommission for its own tenant the same worker stays registered under its ID |
| `RegistryRows.RunRows` | internal/app/registry.go:393-456 | In every reachable state each row answers to a registered worker, to a thread still at work on it, or was given up |
| `RegistryRows.EndedThreadHoldsNothing` | internal/app/registry.go:458-475 | A saga, deletion or restoration that has ended, well or badly, holds no row and no connection any more |
| `RegistryRows.MapAgreesWithStore` | internal/app/registry.go:525-527 | With no operation in flight map and store agree both ways: a row has its registered worker exactly when it was not given up |
| `RegistryRows.GivenUpOnFailure` | internal/app/registry.go:189-191 | A row is only ever given up by a crash, a failed deletion or a failed restoration |
| `RegistryResults.RunBooks` | internal/app/registry.go:189-193 | In every state the gauge is the registered workers, plus the deletions whose store call failed, plus what the threads in flight still owe it; both provisioning counters equal the sagas that ended each way |
| `RegistryResults.GaugeCountsWorkers` | internal/app/registry.go:525-574 | With no operation in flight the gauge is the number of registered workers plus the failed deletions: exact without such a failure and never too low |
| `RegistryResults.EverySagaCounted` | internal/app/registry.go:447-455 | With no operation in flight successes and errors add up to the accepted creations |
| `RegistryCauses.TurnsBackOnFailure` | internal/app/registry.go:393-456 | A saga turns back at a call if and only if the call fails, or its row cannot be stored because the ID is taken |
| `RegistryCauses.EndsWell` | internal/app/registry.go:447-456 | Past its calls a saga does not turn back: in any state it registers its worker, raises gauge and counter and ends well |
| `RegistryCauses.RemovedPumpsTold` | internal/app/registry.go:184-187 | With no operation in flight the pump of every worker that left the map was told to stop |
| `RegistryOpsProofs.SagaAllOrNothing` | internal/app/registry.go:393-475 | For every pattern of failures: an error leaves workers, gauge and sensors as before, closes an opened connection's subscription and connection once each, and leaves the rows as before if and only if no compensating deletion was needed or it succeeded; a success adds exactly one row with the identity and frequency asked for, one running worker with that very configuration, and one open connection |
| `RegistryOpsProofs.DeleteUndoesCreate` | internal/app/registry.go:172-195 | Deleting a gateway right after its creation gives back the rows, the workers and the gauge, with every part of its connection closed once |
| `RegistryOpsProofs.RestoreRebuilds` | internal/app/registry.go:355-391 | Restoration builds a running worker for exactly the provisioned rows whose sensor listing and connect succeed, under the row's own ID, with the whole stored configuration and the stored sensors |
| `RegistryEffects.CreationErrors` | internal/app/registry.go:393-456 | A creation succeeds exactly when every call in turn does and the ID is free; each error exactly when its call is the first to fail; a connection was opened exactly when its turn came |
| `RegistryEffects.CreatedRunsAt` | internal/app/registry.go:477-503 | The worker of a created gateway starts at the frequency asked for, or the default if that is not positive, and its ticker has that period |
| `RegistryEffects.RestoredRunsAt` | internal/app/registry.go:373-391 | A restored gateway's worker starts at the stored frequency, with its period |
| `RegistryEffects.RestoreMarks` | internal/app/registry.go:373-391 | Restoration changes a stored gateway in its status only, to online, if and only if it was restored and the write succeeded |
| `RegistryEffects.DecommissionExact` | internal/app/registry.go:538-576 | For a worker registered under this ID and tenant: it leaves the map, other workers stay, each part of its connection has been closed once, its row and exactly its sensors are gone if the deletion succeeded and all rows stay if not, and the gauge is one lower either way. Otherwise nothing changes |
| `RegistryEffects.DeleteExact` | internal/app/registry.go:172-195 | The same for a deletion, whatever the tenant, but with the gauge lowered only if the row was deleted |
| `RegistryEffects.StopExact` | internal/app/registry.go:156-170 | A stopped worker stays registered with its loop ended, its pump cancelled and its connection closed once in every part; exactly its row says offline if the write succeeded |
| `RegistryEffects.StartExact` | internal/app/registry.go:139-154 | A worker that was not running runs, with nothing reopened, and exactly its row says online if the write succeeded; a running one is left alone |
| `RegistryEffects.AddSensorErrors` | internal/app/registry.go:214-248 | Each error, and success, exactly when it is due |
| `RegistryEffects.AddSensorExact` | internal/app/registry.go:214-248 | On success the new row holds this sensor for this gateway, and a registered worker has it last, with a generator of its own; on an error nothing changes |
| `RegistryEffects.DeleteSensorExact` | internal/app/registry.go:271-277 | A successful deletion removes this sensor from the store and nothing from anywhere else; any other changes nothing |
| `RegistryOpsProofs.SensorsAccounted` | internal/app/registry.go:214-277 | After every sequence of operations a worker's sensors, each listed once, are the gateway's stored ones as stored and, separately, those that DeleteSensor removed since the worker was made; generators match sensors index by index |
| `RegistryOpsProofs.FrequenciesPositive` | internal/app/registry.go:76-79 | After every sequence of operations, whatever is configured or requested, all stored frequencies and all that workers are launched with are positive |
| `RegistryOpsProofs.RunningFrequenciesPositive` | internal/app/worker.go:152-213 | And so is the frequency a launched worker runs at, through everything that happens to it: its ticker always runs with that frequency's period |
| `RegistryOpsProofs.StepKeeps` | internal/app/registry.go:139-598 | Every completed operation keeps the index, the exact sensor lists, the positive frequencies, the close counts and the gauge |
| `RegistryOpsProofs.RunKeeps` | internal/app/registry.go:139-598 | The same in every run of completed operations, with crashes and restorations |
| `RegistryOps.PositiveOr` | internal/config/config.go:59-67 | Absent and non-positive settings give the fallback |
| `GatewayRegistries.GatewayRegistry.CreateAndStart` | internal/app/registry.go:75-97 | The staged, compensating body has the all-or-nothing effect and result of the operation |
| `GatewayRegistries.GatewayRegistry.RunProvisioningSaga` | internal/app/registry.go:393-456 | The same for the saga itself, stage by stage |
| `GatewayRegistries.GatewayRegistry.Compensate` | internal/app/registry.go:458-475 | What is undone for each stage that was reached |
| `GatewayRegistries.GatewayRegistry.LaunchWorker` | internal/app/registry.go:477-536 | The worker is registered with its row's whole configuration, these sensors with a generator each, running and with nothing closed; the gauge is raised and the row marked online if the write succeeds |
| `GatewayRegistries.GatewayRegistry.BulkCreateGateways` | internal/app/registry.go:99-126 | Whatever order the creations run in: one result per usable ID in the order of the IDs, each success its own new row for that ID with the frequency and the identity that are due and its worker registered, each failure due to one of its own calls or a taken ID, all earlier gateways untouched, counters and gauge exact |
| `GatewayRegistries.GatewayRegistry.ResolveFactoryIds` | internal/app/registry.go:128-137 | The loop computes the trimmed, non-blank IDs |
| `GatewayRegistries.FactoryIdsTrimmed` | internal/app/registry.go:128-137 | Every ID that is used is non-blank and has no white space at either end |
| `GatewayRegistries.FactoryIdsConcat` | internal/app/registry.go:128-137 | The IDs keep their order: resolving works list by list |
| `GatewayRegistries.GatewayRegistry.StopWorker` | internal/app/worker.go:129-146 | The first stop of a running worker closes publisher and connection; cancelling the pump closes the subscription; later stops close nothing |
| `GatewayRegistries.GatewayRegistry.Stop` | internal/app/registry.go:156-170 | Stops the worker and marks the row; an error exactly for an unknown ID or a failed write |
| `GatewayRegistries.GatewayRegistry.Start` | internal/app/registry.go:139-154 | A running worker is left alone; else it is started and the row marked |
| `GatewayRegistries.GatewayRegistry.Delete` | internal/app/registry.go:172-195 | Unregisters, stops, deletes the row, lowers the gauge; a failed deletion skips the last two |
| `GatewayRegistries.GatewayRegistry.HandleDecommission` | internal/app/registry.go:538-576 | Ignored for an unparsable ID, an unknown one or another tenant; else what DecommissionExact says |
| `GatewayRegistries.GatewayRegistry.StopAll` | internal/app/registry.go:578-598 | Stops every worker once, in an arbitrary order |
| `GatewayRegistries.StopAllStopsEach` | internal/app/registry.go:578-598 | Whatever the order, every worker and its connection end up as one stop would have left them, and the invariant holds |
| `GatewayRegistries.GatewayRegistry.AddSensor` | internal/app/registry.go:214-248 | Range check, lookup, insertion, attachment to the registered worker; the errors in that order |
| `GatewayRegistries.GatewayRegistry.DeleteSensor` | internal/app/registry.go:271-277 | The row goes, the worker is not told |
| `GatewayRegistries.GatewayRegistry.InjectSensorOutlier` | internal/app/registry.go:317-351 | The loop over the map finds the only worker of the sensor's row; each error exactly when it is due |
| `GatewayRegistries.GatewayRegistry.RestoreAll` | internal/app/registry.go:355-371 | The loop restores each listed gateway, whatever happens to the others |
| `GatewayRegistries.GatewayRegistry.RestoreGateway` | internal/app/registry.go:373-391 | List, connect, start, with nothing changed on an error |
| `SensorRaces.CopiesExact` | internal/app/registry.go:228-248 | In every interleaving of AddSensor and DeleteSensor with a creation, the worker has each sensor once for the saga's listing and once for an AddSensor that found it registered: never, once or twice |
| `SensorRaces.WorkerMatchesStoreExactly` | internal/app/registry.go:439-447 | With no AddSensor under way the worker has exactly the stored sensors, each once, if and only if these are the ones listed and the ones attached late, and none is both |
| `SensorRaces.SensorMissed` | internal/app/registry.go:238-245 | A run in which a stored sensor never reaches the worker |
| `SensorRaces.SensorTwice` | internal/app/registry.go:238-245 | A run in which the worker gets a sensor twice |
| `RefClosure.CollectRefsTransitive` | scripts/filter-asyncapi.mjs:64-85 | Terminates on every finite document, cyclic references or not, and returns exactly the references reachable from the initial ones |
| `RefClosure.ReachableIsLeast` | scripts/filter-asyncapi.mjs:59-63 | The reachable references are the least set that contains the initial ones and is closed under following resolvable references |
| `RefClosure.FollowBounded` | scripts/filter-asyncapi.mjs:72-76 | Following a reference finds nothing from outside the document, which bounds the worklist |
| `RefClosure.Turn` | scripts/filter-asyncapi.mjs:68-81 | One turn of the worklist keeps its invariant and makes progress |
| `RefClosure.Enqueue` | scripts/filter-asyncapi.mjs:76-81 | Exactly the new references are queued |
| `Json.CollectRefs` | scripts/filter-asyncapi.mjs:46-57 | The recursive walk adds exactly the references inside the document, in any field order |
| `Json.IndexNameInjective` | scripts/filter-asyncapi.mjs:73 | Distinct array indices have distinct property names |
| `RefPaths.RefsExact` | scripts/filter-asyncapi.mjs:46-57 | The references of a document are exactly the strings that some object in it, at whatever depth, has as its $ref |
| `SpecFilter.PruneComponents` | scripts/filter-asyncapi.mjs:91-103 | The nested loops keep exactly the entries whose canonical reference is kept, and throw exactly on a null section |
| `SpecFilter.FilterV2` | scripts/filter-asyncapi.mjs:137-150 | The v2 loop computes the kept channels and the components their references reach |
| `SpecFilter.FilterV3` | scripts/filter-asyncapi.mjs:108-132 | The v3 loop computes the kept operations, the channels they name that exist and the components reached |
| `SpecFilter.KeepOperations` | scripts/filter-asyncapi.mjs:112-121 | The operations kept and the channel names collected on the way |
| `FilterKeeps.KeptV2` | scripts/filter-asyncapi.mjs:137-150 | A v2 channel stays, unchanged, if and only if its own tags, those of its publish or those of its subscribe have the tag, as a string or by name; all else but the components stays as it is |
| `FilterKeeps.ThrowsV2` | scripts/filter-asyncapi.mjs:91-150 | The v2 filter throws exactly on a null channel or a null section of components |
| `FilterKeeps.KeptOperationsV3` | scripts/filter-asyncapi.mjs:108-121 | A v3 operation stays, unchanged, if and only if it or the channel it names has the tag |
| `FilterKeeps.KeptChannelsV3` | scripts/filter-asyncapi.mjs:123-126 | A v3 channel stays, unchanged, if and only if it exists and an operation that stays names it, whatever tags it has |
| `FilterKeeps.RestV3` | scripts/filter-asyncapi.mjs:108-132 | All else but the components stays as it is |
| `FilterKeeps.ThrowsV3` | scripts/filter-asyncapi.mjs:91-132 | The v3 filter throws exactly on a null operation, one whose channel reference is neither a string nor null, or a null section of components |
| `FilterProofs.FilterV2Sound` | scripts/filter-asyncapi.mjs:137-150 | A reference of exactly a section and a name without slashes, in a kept channel or in a kept component spelled without slashes, resolves to the same object as before, and every kept component is reachable from a kept channel |
| `FilterProofs.FilterV3Sound` | scripts/filter-asyncapi.mjs:108-132 | The same from the kept operations and channels |
| `FilterReferences.FateV2` | scripts/filter-asyncapi.mjs:137-150 | What every reference whatsoever resolves to after the v2 filter: into a component at any depth, as before or nothing as its canonical reference was reached or not; into a channel, as before or nothing as the channel was kept or not; to the tables themselves, what is left of them; elsewhere, as before |
| `FilterReferences.FateV3` | scripts/filter-asyncapi.mjs:108-132 | The same for v3, where operations too are found again exactly when they were kept |
| `FilterReferences.OwnChannelSurvives` | scripts/filter-asyncapi.mjs:113-126 | The channel reference of a kept operation to an existing channel, its name without slashes, survives |
| `FilterLosses.ComponentReferencesV2` | scripts/filter-asyncapi.mjs:72-101 | A reference inside a component resolves as before in every document whose filtering keeps it, if and only if it points outside channels and components, or into that very component, or has exactly a section and a name while the component is spelled without slashes |
| `FilterLosses.ReachedReferencesV2` | scripts/filter-asyncapi.mjs:64-101 | A reference reached from a kept channel resolves as before in every document, if and only if it points outside channels and components or has exactly a section and a name |
| `FilterLosses.UnsafeLostV2` | scripts/filter-asyncapi.mjs:72-101 | For every other component and reference, a document in which filtering keeps the component and loses the reference |
| `FilterLosses.DeepReferenceLost` | scripts/filter-asyncapi.mjs:94-99 | A reference from one component to somewhere inside another: a document in which it is followed, resolves before and to nothing after |
| `FilterLosses.DeepInput` | scripts/filter-asyncapi.mjs:94-99 | The same for #/components/m/M and #/components/s/F/id |
| `FilterLosses.SlashesExact` | scripts/filter-asyncapi.mjs:72-97 | All references of exactly a section and a name without slashes survive with the component they stand in, in every document, if and only if that component is spelled without slashes |
| `FilterLossesV3.ComponentReferencesV3` | scripts/filter-asyncapi.mjs:72-132 | The iff for v3, where references into operations are lost as well, except into the text of an operation's own channel reference at no character, which never resolve |
| `FilterLossesV3.ReachedReferencesV3` | scripts/filter-asyncapi.mjs:64-132 | The iff for references reached from a kept operation or channel in v3 |
| `FilterLossesV3.UnsafeLostV3` | scripts/filter-asyncapi.mjs:72-132 | For every other component and reference, a document in which the v3 filter keeps the component and loses the reference |
| `FilterLossesV3.BlockedUnresolved` | scripts/filter-asyncapi.mjs:113-114 | Those exceptions resolve neither before nor after, in every document the filter accepts |
| `FilterLossesV3.ChannelReferenceLostV3` | scripts/filter-asyncapi.mjs:123-126 | For every channel name without slashes, a document in which a reached reference to that channel is lost |
| `FilterProofs.PrunedComponent` | scripts/filter-asyncapi.mjs:94-101 | Exactly the components whose canonical reference is kept survive, unchanged |
| `FilterProofs.ResolveCanon` | scripts/filter-asyncapi.mjs:72-73 | Without slashes in it a canonical reference resolves to its component |
| `Migrations.Store.RunMigrations` | internal/adapters/sqlite/store.go:46-74 | The loop over the entries, cut short at any call, has the effect and result of the run it is modelled by |
| `Migrations.Store.ApplyMigration` | internal/adapters/sqlite/store.go:76-107 | A script and its version are committed together or not at all; a recorded one is skipped |
| `Migrations.ResumedEqualsUninterrupted` | internal/adapters/sqlite/store.go:46-107 | Any number of runs, each cut short at any call, and one complete run: the same schema, versions and order of scripts as one uninterrupted upgrade |
| `Migrations.InterruptedFrom` | internal/adapters/sqlite/store.go:76-107 | A run cut short anywhere leaves what remains to be done with the same final result |
| `Migrations.CompletedFrom` | internal/adapters/sqlite/store.go:65-73 | A run that returns no error is the whole upgrade |
| `Migrations.UncutCompletes` | internal/adapters/sqlite/store.go:46-74 | A run in which no call fails returns no error if and only if every pending script, in its turn, executes |
| `Migrations.PendingExact` | internal/adapters/sqlite/store.go:65-83 | The pending scripts are exactly those in the directory that are not recorded, each once |
| `Migrations.PendingInOrder` | internal/adapters/sqlite/store.go:65-83 | And in the order of the directory |
| `Migrations.FurtherRunsChangeNothing` | internal/adapters/sqlite/store.go:81-83 | After a complete run every further run, complete or not, is an identity |
| `Migrations.CommittedOnce` | internal/adapters/sqlite/store.go:46-107 | From a fresh store, after any number of runs each cut short at any call, no script was committed twice and exactly the committed ones are recorded |

## Left out

- HTTP handlers, DTOs, server wiring, health, logging, environment parsing, TLS and NATS connection set-up, and Prometheus itself: they would add only easy members. The counters and the gauge are kept as integers, BufferFill is not.
- AES-GCM, base64, JSON decoding, UUID parsing and SQL execution are library behaviour: their success or failure is an argument, and SQL scripts are arbitrary functions on a schema.
- Random numbers and the sine function are arbitrary reals within their bounds; nothing is said about probabilities. Floating point is modelled by reals, so NaN, infinities and rounding are not covered.
- Restart after Stop: Start is modelled as far as the running flag and the row's status go. Stop closes the publisher and cancels the pump and Start reopens neither, so nothing is claimed about what a restarted worker can send or receive; nor is the second Flush goroutine that Start launches part of the buffer's model.
- Agreement of the stored status with the worker's status: registry operations write only the store, a restored worker keeps the old row's status, and the loop without a ticker drops the status part of an update. Status writes are not part of the interleaved registry model.
- That every accepted command is answered: the pump may drop one after the JetStream acknowledgement; the accounting says exactly which.
- That DeleteSensor stops a running worker's telemetry: it does not, and `SensorsAccounted` says so.
- Close of the subscriber against a delivery in progress: it depends on the asynchronous Drain of the NATS client, which is not part of this model.
- The timeout branch of the worker's Stop and an old loop overlapping a new one: stopping is assumed to end through `done`.
- Cost and failure of publishing replies, their text and time stamps: a reply is its command and its status.
- UpdateConfig and InjectGatewayAnomaly of the registry, and its read-only listings: single non-blocking sends and lookups, covered on the worker's side.
- The order of ListGateways and ListSensors: the queries have no ORDER BY, the model lists by ascending row id; no result depends on it beyond the sequence itself.
- GatewayRegistries.GatewayRegistry.BulkCreateGateways: runs the creations one at a time in an arbitrary order; their interleaving, without the limit of ten at once, is what RegistryModel covers.
- GatewayRegistries.GatewayRegistry.StopAll: likewise stops the workers one at a time in an arbitrary order; in RegistryModel it is one Stop thread for each worker.
- GatewayRegistries.GatewayRegistry.LaunchWorker: the registry holds a worker as a record of what the registry reads and writes of it, not as a reference to a GatewayWorkers.GatewayWorker, so aliasing between the two is not captured; the loop, the pump and the buffer that it starts are modelled in their own modules.
- RegistrySteps.RunKeeps: the sensors of a gateway are not part of this model; their race with a creation is SensorRaces, for one gateway, and all else about them is modelled operation by operation.
- SensorRaces.CopiesExact: the deletion of the gateway itself, which takes its sensors along, is not part of this race.
- Telemetry.OnlyOlderEnvelopes: a tick's envelopes are given to the buffer after the tick rather than one by one within it, which changes nothing the worker or the buffer does.
- Store errors other than "nothing happened": a commit that succeeds but reports a failure is not modelled.
- BufferProofs.RunAccounts: capacity 0 is excluded, which the configuration never produces; NewestKeptIffCapacity says what goes wrong there.
- Properties that JSON objects inherit in JavaScript, `__proto__` keys, and YAML aliases that make a document cyclic: a document is a finite tree with an object at its root.
