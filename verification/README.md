# energystore: the import path and the accounting around it, verified

This project models the part of the energystore service that takes CR_MSG messages from the broker
and stores them as quarter-hour rows, and the accounting code that reads those rows, and proves what
that code promises. `dafny verify dfyconfig.toml` checks everything.

The pieces, from the store upwards:

- **Calendar, Rows, Registry** – local days of 23 to 25 hours, row ids (local day and wall-clock
  slot, so two instants of the autumn hour share one), the shared arrays of a row, and the meta record
  with the index of every metering point.
- **StoreSpec, StoreOrder, Regroup, DayBatch, DayArrays, Storage** – storing one day block
  (`StoreEnergyV2`) and a whole day at once (`StoreDayBatch`). The batch is proved to leave the meta
  record of block by block storing and rows that read alike, and exactly when the arrays are the same
  too, lengths included.
- **DaySplit, Runs, ImportSpec, Outcomes, Importer, ImportBatch, TenantImporter** – cutting messages
  into days, cutting a batch into runs, importing runs day by day with every store error and stop, and
  the outcome of every message. Without errors the stores read like what importing the messages one
  after the other leaves.
- **BatchExecution** – replies and acks of a batch that may panic and be run again message by message.
- **Dispatch, DispatchSafety, DispatchSteps, DispatchTheorems, DispatchProgress, DispatchUsage,
  Dispatcher** – the scheduler as a state machine over all interleavings of its goroutines, an inductive
  invariant, the theorems that follow from it, a rank that bounds the steps between submissions, the
  time of last use, and the class whose methods are the steps of that machine.
- **Pool** – the reference-counted database handles.
- **StoreLaws, CodeMeaning** – what a block does to every single cell: redelivery, later message wins,
  which cells of other metering points can be touched; and what the meter codes mean, from the message
  to the reports.
- **Buckets, BucketBounds, CountedDays, Engine, Hourly, Summaries, Billing, RawDelete** – time-of-use
  buckets, gap filling, aggregation, hourly reports and summaries with their qualities, the check before
  billing, deleting raw data.
- **Seqs, World** – facts about sequences and sets, and the surroundings.

The importer's surroundings are one object, `World.Context`: the context that ends once, and a counter
of failed store operations. Every read and write of the store may fail, and the context may end
between any two steps. Contracts that say "without a fault" compare that counter. A store keeps the
history of its attempts: every block a single store or a day batch stored, every block a single store
refused, every time it could not be opened. Faults are counted exactly, so the contracts say how many
messages may fail and for which blocks. Panics and failed openings of the pool are counted the same way.

Results where the code does not meet a plain reading of its own promise:

- A block with the code G.03 (self coverage) for a *producer* writes into the first slot of the producer
  with the next index, because a producer owns two slots and that code goes to the third.
  `StoreLaws.TouchesOther` gives the exact condition, `StoreLaws.CoverOverwritesNeighbour` a case.
- `StoreDayBatch` leaves the same arrays as block by block storing if and only if its last block with a
  stored meter code comes last, or there is none, or that block creates only rows whose value and
  quality arrays end up equally long, which its counts and its highest slot decide
  (`DayArrays.SameArrays`, `DayArrays.BatchExact`). `DayArrays.LengthsDiffer` is a case where they
  differ; reading evens the rows out (`DayArrays.BatchReading`).
- A period that ends within the first quarter hour of a day gives a last block that ends on the day
  before it starts (`DaySplit.EndsBefore`, exact). Storing such a block reads no row, so every row it
  has a value for loses the cells of all other metering points (`DayArrays.ReversedForgets`, case
  `DayArrays.ReversedTakesNeighbour`).
- Cutting a message into days keeps its values if and only if they lie in the period and none crosses a
  local midnight (`DaySplit.SplitConserves`). A value over a midnight is counted on both days with its
  whole energy (`DaySplit.SplitEnergyExact`, exact; case `DaySplit.CrossingCountsTwice`).
- The energy summary takes the quality of a metering point only if its block is whole and the quality
  array goes on after it. Over any rows it shows the quality of the hourly report if and only if every
  level from L2 on that it does not look at is matched by one at least as high that it looks at
  (`Summaries.SummaryQuality`; cases `Summaries.SummaryHidesQuality` and, the other way round,
  `Summaries.FreshRowShowsQuality`).
- The energy summary drops the values of a block that a row does not finish, which the hourly report
  counts. The two have the same values if and only if the values of unfinished blocks add up to nothing
  (`Summaries.SummaryValues`); without negative values that means none of them is there
  (`Summaries.NothingDropped`). Such a row is what storing the consumption of a first consumer gives
  (`DayArrays.OneValueRow`, `Summaries.SummaryDropsValue`).
- The last day of a meter's period counts in a report if and only if its first row is that of midnight
  (`CountedDays.DayCounts`, case `CountedDays.LastDayMissed`).

## Model

| member | source | states |
|---|---|---|
| `Rows.OrganizeOrder` | store/importFunctions.go:113-128 | no entry is imported twice; participation-factor codes come after all plain ones and so win, within a kind the order of the message holds |
| `Rows.OrganizeAll` | store/importFunctions.go:113-128 | exactly the entries with a known code other than G.03R are imported |
| `Rows.SortIsUnique` | store/importFunctions.go:139-145 | values with distinct start seconds have only one ascending arrangement, so the unstable sort has one result |
| `Rows.SortedIsSort` | store/importFunctions.go:139-145 | the order used is a permutation of the values, ascending by start second |
| `Storage.MetaInfoOf` | store/rawDataHelper.go:20-37 | the counted consumers and producers and the highest index of each direction, -1 without any |
| `Storage.RegisterMeteringPoint` | store/rawDataHelper.go:57-82 | a known point changes nothing; an unknown one gets the next index of its direction, and counting on equals counting afresh |
| `Registry.RegisterUnique` | store/rawDataHelper.go:57-82 | registration never gives two points of a direction the same index |
| `Registry.WidenCommutes` | store/importFunctions.go:233-249 | periods of different days may widen the record in either order, although bounds are stored as ambiguous wall-clock strings |
| `Registry.WidenTwice` | store/importFunctions.go:233-249 | widening by the same period again changes nothing |
| `Storage.ImportCodeValues` | store/importFunctions.go:148-176 | the values of one code: the first of a row id overwrites, a repeated one adds |
| `Storage.ImportEnergyValues` | store/importFunctions.go:130-177 | all codes of a block in their order, plain before participation-factor codes |
| `Storage.EvenCreatedRows` | store/importBatch.go:111-120 | rows created in the batch get exactly the lengths a re-read would give them |
| `Storage.RegisterEach` | store/importBatch.go:152-176 | per block the counts a single store would have seen at that block |
| `Storage.BowStorage.PrepareMetaInfo` | store/rawDataHelper.go:39-53 | reads, registers and writes the record; any failure is a meta record error |
| `Storage.BowStorage.StoreEnergyV2` | store/importFunctions.go:19-111 | without a fault the store is the old one with the block stored: register, read the days, import, write back, widen the period; an error exactly after one fault; after a failing read the rows are unchanged, after an error of the meta record unchanged or written, and only a failing write of the rows leaves any |
| `Storage.BowStorage.RegisterBlocks` | store/importBatch.go:152-176 | one read and at most one write leave the record as registering block by block |
| `Storage.BowStorage.WidenMetaPeriods` | store/importBatch.go:182-203 | one read and at most one write leave the periods as widening block by block |
| `Storage.BowStorage.StoreDayBatch` | store/importBatch.go:27-106 | for any blocks an error exactly after one fault and the meta record of storing block by block; for blocks of one day also the rows: they read alike, and the arrays are the same if and only if `SameArrays` holds; after a failing read the rows are unchanged |
| `DayArrays.BatchReading` | store/importBatch.go:27-106 | a day stored at once reads back as the day stored block by block |
| `DayArrays.BatchExact` | store/importBatch.go:27-120 | the arrays are the same, lengths included, exactly if the last block with a stored code comes last, there is none, or it creates only evenly sized rows |
| `DayArrays.LengthsDiffer` | store/importBatch.go:27-120 | a case where they differ, with blocks as the cut gives them: a consumer's first block, then a block without a stored code |
| `DayBatch.LikeStoreAll` | store/importBatch.go:108-120 | stores that read alike still do after storing any blocks |
| `DayArrays.ReversedForgets` | store/importFunctions.go:19-111 | a block that ends on the day before it starts empties every other cell of the rows it has a value for, and no other |
| `DayArrays.ReversedTakesNeighbour` | store/importFunctions.go:19-111 | a case with the block of a cut: the 5 kWh of a neighbour are gone |
| `DayArrays.OneValueRow` | store/importFunctions.go:148-216 | the row that the first value of the only consumer makes ends inside of the consumer's block |
| `StoreSpec.SwapStores` | mqttclient/importBatch.go:197-231 | blocks of different days may be stored in either order |
| `StoreOrder.StoreAllPeriods` | store/importBatch.go:178-203 | registering all blocks first and widening all periods last leaves the record of block by block storing |
| `ImportSpec.RunByDays` | mqttclient/importBatch.go:166-243 | registering the first blocks ahead, sizing every block by its message's counts and storing day by day equals storing all blocks in message order |
| `DaySplit.SplitEnergyByDay` | mqttclient/energyExecutor.go:99-147 | terminates and returns one block for every local day that has a value |
| `DaySplit.SplitWithinDays` | mqttclient/energyExecutor.go:99-147 | for any period every block starts and has its values on one local day and the days ascend; blocks end on their day if the period does not end within the first quarter hour of a day |
| `DaySplit.EndsBefore` | mqttclient/energyExecutor.go:137-143 | the block of a day ends on that day exactly if the period reaches a quarter hour into it |
| `DaySplit.DayHoldsItsParts` | mqttclient/energyExecutor.go:111-135 | for any values the block of a day holds the part of each value on that day, in order |
| `DaySplit.DayHoldsItsValues` | mqttclient/energyExecutor.go:111-135 | the block of a day holds the values of that day, unchanged and in order |
| `DaySplit.SplitConserves` | mqttclient/energyExecutor.go:99-147 | over all blocks every value occurs as often as before the cut if and only if all values lie in the period and none crosses a midnight |
| `DaySplit.SplitKeepsEnergy` | mqttclient/energyExecutor.go:99-147 | for such values the energy of every meter code is the same before and after the cut |
| `DaySplit.SplitEnergyTimes` | mqttclient/energyExecutor.go:111-135 | for any values and any period the energy of the blocks counts each value once per day it has a part on |
| `DaySplit.SplitEnergyExact` | mqttclient/energyExecutor.go:111-135 | for values of the period the cut loses no energy, and keeps it exactly if no value with energy crosses a midnight |
| `DaySplit.CrossingCountsTwice` | mqttclient/energyExecutor.go:114-127 | a case at every midnight: 1 kWh becomes more |
| `Runs.SelfOverlaps` | mqttclient/importRuns.go:45-54 | true exactly if two periods of the message overlap |
| `Runs.OverlapsAny` | mqttclient/importRuns.go:56-65 | true exactly if a period overlaps one of the list |
| `Runs.SplitRuns` | mqttclient/importRuns.go:15-43 | every index once and in order; a run is one self-overlapping message, or holds no two overlapping periods of a metering point; and a run that is not single starts first, after a single one, or with a message that overlaps the run before |
| `Importer.Import` | mqttclient/energyExecutor.go:202-225 | all day blocks are tried in order, a refused one does not stop the others, a meta record error does; the outcome lists exactly the refused blocks, one fault each; stored exactly without a fault, and then all blocks are stored in order |
| `Importer.StoreDay` | mqttclient/importBatch.go:247-271 | a day as a batch, else block by block; every block is afterwards stored, in its message's errors, or still pending after a meta record error; only blocks that a single store refused are charged, each to its message; after exactly one fault outside the meta record all blocks are stored and no message is charged |
| `Importer.StoreSingly` | mqttclient/importBatch.go:259-269 | every block of the day is tried on its own, up to a meta record error; the errors after it are those before with each refused block charged to its message; faults are refusals |
| `Importer.ImportRun` | mqttclient/importBatch.go:169-243 | only the run's outcomes change; "stored" only if every day block of the message was stored, "stopped" only after the context ended, "failed" only with refused blocks of the message in its list; the messages that fail number at most the refused blocks, and these less than the faults; without fault and stop all are stored, and the store reads like after message by message import if the blocks lie on their days, and is that store if they also carry stored codes |
| `Outcomes.TriedFails` | mqttclient/energyExecutor.go:195-225 | a message whose blocks were tried one by one fails with a list of its refused blocks; without a refusal every block is stored |
| `ImportBatch.ImportNextRun` | mqttclient/importBatch.go:147-162 | the same for a stopped, a single and a day by day run, with the failed messages counted against refusals and faults |
| `ImportBatch.ImportRuns` | mqttclient/importBatch.go:146-164 | the same for all runs of a community, also when a meta record error hands the rest to single imports |
| `TenantImporter.TenantEnergyImporter.EnsureDb` | mqttclient/energyExecutor.go:64-78 | an open store is kept, a new one shows what is on disk, a failure costs one fault, is noted in the history and changes no community |
| `TenantImporter.GroupByEcId` | mqttclient/importBatch.go:110-117 | every message in the group of its community, in order, each community once |
| `TenantImporter.TenantEnergyImporter.ImportEcId` | mqttclient/importBatch.go:132-164 | touches no other community; verdicts as above |
| `TenantImporter.TenantEnergyImporter.ImportBatch` | mqttclient/importBatch.go:108-122 | for any batch one outcome per message: stored only if every day block is in the store's log, stopped only after the end, failed only with a list of its own refused blocks, not opened only if the store could not be opened; in every community the failed messages number at most the refused blocks; without fault and stop all stored, and all stores read like after importing the messages in the given order if the blocks lie on their days, and are those stores if they also carry stored codes |
| `TenantImporter.RegularBatch` | mqttclient/energyExecutor.go:99-147 | periods that end at a midnight or at least a quarter hour after one give blocks on their days |
| `TenantImporter.TenantEnergyImporter.Interrupt` | mqttclient/dispatcher.go:302-311 | a panic inside an import may have opened any of the stores and may leave any rows and any record; what was logged as stored stays |
| `TenantImporter.ImportAllByEcId` | mqttclient/importBatch.go:101-122 | message by message import leaves in each store the blocks of its own messages in their order |
| `BatchExecution.TenantExecutor.ReplyPart` | mqttclient/importBatch.go:82-99 | the replies are the stored messages in order, cut off where a panic came; all but stopped ones are finished |
| `BatchExecution.TenantExecutor.ImportPart` | mqttclient/importBatch.go:82-99 | only stored messages are replied; without fault, stop and panic every message of the part is |
| `BatchExecution.TenantExecutor.PanicPart` | mqttclient/importBatch.go:82-84 | a panic inside the import: nothing of the part is replied, and the rerun knows what was replied before |
| `BatchExecution.TenantExecutor.FlushPart` | mqttclient/importBatch.go:66-73 | a part that is imported, or panics at any point, keeps the books balanced |
| `BatchExecution.TenantExecutor.NextDelivery` | mqttclient/importBatch.go:50-70 | the books of replied, finished and waiting messages stay balanced for every message, whichever branch it takes |
| `BatchExecution.TenantExecutor.ExecuteParts` | mqttclient/importBatch.go:44-79 | no message replied twice; after a return replied holds none of the batch and every replied message is finished; after a panic replied is exactly what was replied, and a single message that panics was not |
| `BatchExecution.TenantExecutor.RunSingly` | mqttclient/dispatcher.go:286-293 | every message is run again: the rerun replies nothing again, finishes everything replied before the panic, and without a stop the decodable messages without a reply and without a refused block number at most the panics of the rerun |
| `BatchExecution.UnservedNext` | mqttclient/dispatcher.go:290-293 | a message of the rerun is served, has a refused block or an unopened store, or panics; only then one more is lost |
| `BatchExecution.CalmReplied` | mqttclient/dispatcher.go:290-293 | without a fault no store refused a block, so with nothing lost every decodable message is replied |
| `BatchExecution.TenantExecutor.AckFinished` | mqttclient/dispatcher.go:295-299 | acks the finished messages in order, each once |
| `BatchExecution.TenantExecutor.ExecuteBatch` | mqttclient/dispatcher.go:281-311 | for any batch, over panics, errors and stops: at most one reply and one ack per message, every replied message acked and stored, an unacked one not replied, replied unchanged; without a stop all acked, and of more than one message the decodable ones that are not replied and have no refused block number at most the panics minus one; after one panic without fault and stop every decodable message is replied; without panic, fault and stop all in order, and the stores as after importing them in order |
| `BatchExecution.StaysSound` | mqttclient/dispatcher.go:270-280 | one more batch keeps that no message is replied or acked twice and replied ones are acked |
| `BatchExecution.TenantExecutor.ExecuteBatches` | mqttclient/dispatcher.go:216-254 | over any sequence of batches, panics, errors and stops: each message replied and acked at most once, replied ones stored and acked, and without a stop all acked |
| `DispatchSteps.StepKeeps` | mqttclient/dispatcher.go:161-268 | every step of every goroutine keeps the invariant: ready list, owners, executors, message order, wakeups |
| `DispatchSteps.RunKeeps` | mqttclient/dispatcher.go:109-133 | the invariant holds in every state of every run |
| `DispatchSteps.SubmitKeeps` | mqttclient/dispatcher.go:161-176 | a submitted message makes its tenant ready unless it is ready or busy |
| `DispatchSteps.MarkReadyKeeps` | mqttclient/dispatcher.go:179-186 | restores that every tenant with messages is ready or busy, and signals for it |
| `DispatchSteps.TakeKeeps` | mqttclient/dispatcher.go:216-233 | taking the first available tenant, going to sleep and ending lose no wakeup |
| `DispatchSteps.ReserveKeeps` | mqttclient/executors.go:16-37 | running, closing a victim, sleeping at the cap and giving up keep open equal to the executors that exist, at most maxOpen |
| `DispatchSteps.SettleKeeps` | mqttclient/executors.go:117-130 | after a close the tenant keeps its place, is forgotten, or becomes ready |
| `DispatchSteps.FinishKeeps` | mqttclient/dispatcher.go:247-252 | a finished batch frees its tenant and a broadcast is still to come |
| `DispatchSteps.CloseIdleKeeps` | mqttclient/executors.go:78-103 | idle executors start to close, none of them closed before |
| `DispatchSteps.CloseAllKeeps` | mqttclient/dispatcher.go:190-214 | the end of Close closes what is left |
| `DispatchTheorems.NoDeadlock` | mqttclient/dispatcher.go:45-59 | until the context ends, a step of a lane or closer is enabled while a message is queued or a tenant busy |
| `DispatchTheorems.CanStepEnabled` | mqttclient/dispatcher.go:216-254 | every lane that does not sleep has an enabled step |
| `DispatchTheorems.CloserEnabled` | mqttclient/executors.go:105-113 | every closer has an enabled step |
| `DispatchTheorems.CapSleeperWaits` | mqttclient/executors.go:13-37 | a lane asleep at the cap waits for a lane or closer that can step |
| `DispatchTheorems.WorkSleeperWaits` | mqttclient/dispatcher.go:221-224 | a lane asleep on work while a tenant is available: another lane was woken |
| `DispatchTheorems.StopWakesAll` | mqttclient/dispatcher.go:123-131 | after the two broadcasts every lane has ended or has an enabled step, so Close does not wait for a sleeper |
| `DispatchTheorems.OneActor` | mqttclient/dispatcher.go:78-85 | two lanes, or a lane and a closer, never work on one tenant; a tenant is busy exactly while one does |
| `DispatchTheorems.NeverClosedRunning` | mqttclient/executors.go:28-33 | no batch ever runs on an executor whose Close was called |
| `DispatchTheorems.AllClosedOnce` | mqttclient/dispatcher.go:188-214 | a run that ends with Close closed every executor it made, each once |
| `DispatchTheorems.BatchIsPrefix` | mqttclient/dispatcher.go:235-238 | a batch is a non-empty prefix of the queue of at most batchMax messages, and the rest stays |
| `DispatchTheorems.AcceptedInOrder` | mqttclient/dispatcher.go:229-251 | batches taken so far followed by the queue are the accepted messages in order, also over deletion and return of the tenant |
| `DispatchTheorems.RoundRobin` | mqttclient/dispatcher.go:256-268 | when a tenant is taken, whoever stood ahead of it when it was put in ready was taken since or is having its executor closed |
| `DispatchTheorems.StaysAhead` | mqttclient/dispatcher.go:179-186 | the order of two tenants in ready never changes |
| `DispatchProgress.OwnStepFalls` | mqttclient/dispatcher.go:216-254 | every step of a lane or closer lowers the rank of the state |
| `DispatchProgress.QuietRunEnds` | mqttclient/dispatcher.go:216-254 | between submissions lanes and closers make at most as many steps as the rank says, in any interleaving |
| `DispatchProgress.RestIsServed` | mqttclient/dispatcher.go:45-59 | when none of them has a step to make, every accepted message was handed to an executor and no tenant is busy |
| `DispatchProgress.RestIsOver` | mqttclient/dispatcher.go:188-203 | after the stop, when none of them has a step to make, all lanes ended and nothing is being closed, so the wait of Close is over |
| `DispatchUsage.LastUsed` | mqttclient/dispatcher.go:247-251 | over every run the time of last use of a tenant is the time of the last batch that finished for it since its entry was made, 0 without one |
| `DispatchUsage.JanitorWaits` | mqttclient/executors.go:79-95 | an executor the janitor closes finished no batch for the minimum idle time or the timeout |
| `Dispatcher.TopicDispatcher.Submit` | mqttclient/dispatcher.go:161-176 | the fields make exactly the submit step of the machine |
| `Dispatcher.TopicDispatcher.PutReady` | mqttclient/dispatcher.go:179-186 | the mark-ready step |
| `Dispatcher.TopicDispatcher.TakeReady` | mqttclient/dispatcher.go:258-268 | removes the first tenant that is not busy and keeps the others in place |
| `Dispatcher.TopicDispatcher.LookForWork` | mqttclient/dispatcher.go:219-229 | the take step |
| `Dispatcher.TopicDispatcher.CapVictim` | mqttclient/executors.go:41-57 | the idle executor without queued work unused for longest, else the idle one last in ready, none only if no executor is idle |
| `Dispatcher.TopicDispatcher.MakeRoom` | mqttclient/executors.go:16-37 | the step at the cap with that victim |
| `Dispatcher.TopicDispatcher.RunOrMakeRoom` | mqttclient/dispatcher.go:230-242 | the reserve step; the batch returned is the one that runs |
| `Dispatcher.TopicDispatcher.ExecutorGone` | mqttclient/executors.go:117-130 | the mark-closed step |
| `Dispatcher.TopicDispatcher.VictimClosed` | mqttclient/executors.go:31-33 | the step of a lane whose victim is closed |
| `Dispatcher.TopicDispatcher.IdleClosed` | mqttclient/executors.go:105-113 | the step of a closer that is done |
| `Dispatcher.TopicDispatcher.BatchDone` | mqttclient/dispatcher.go:247-251 | the finish step, with the time of last use |
| `Dispatcher.TopicDispatcher.ChooseStale` | mqttclient/executors.go:86-95 | at most parallel idle executors, only stale ones, oldest first: an overdue one, or one past the minimum with parallel newer idle ones, stays only if parallel others, none newer, are closed |
| `Dispatcher.TopicDispatcher.CloseStale` | mqttclient/executors.go:78-103 | the janitor step with that choice |
| `Dispatcher.TopicDispatcher.CloseRest` | mqttclient/dispatcher.go:194-203 | every executor left is taken once and open is 0 |
| `Pool.DbPoolObject.Get` | store/ebow/pool.go:64-90 | a handle on the open database, nothing, or a wait exactly if all handles are out; on an open pool nothing exactly if the opening failed; handles out stay counted and a waiting Get is never forgotten |
| `Pool.DbPoolObject.GetAgain` | store/ebow/pool.go:68-90 | the same for a Get woken from its wait |
| `Pool.DbPoolObject.Serve` | store/ebow/pool.go:73-89 | on an open pool a handle unless the opening failed, which is counted; a database is opened exactly if none is open; a failed opening passes the wakeup on; an open database is never replaced |
| `Pool.DbPoolObject.Put` | store/ebow/pool.go:94-109 | a handle put back already changes nothing; the last one closes the database; a waiting Get is woken |
| `Pool.DbPoolObject.Shutdown` | store/ebow/pool.go:121-127 | no Get waits any more, every database opened is closed, handles still out may be put back |
| `Pool.KeyCollision` | store/ebow/pool.go:188-190 | exactly when two stores share a pool key |
| `Pool.KeyInjective` | store/ebow/pool.go:181-190 | tenants without a slash never share one |
| `Pool.AcceptedKeys` | store/ebow/rowdata.go:102-115 | stores that OpenStorage accepts share a pool exactly if lowered tenant and community id agree |
| `StoreLaws.ImportCodesCell` | store/importFunctions.go:130-216 | the effect of a block on every single cell, whatever the rows held |
| `StoreLaws.CodesForget` | store/importFunctions.go:139-216 | a block overwrites a cell without regard to what it held, or leaves it alone |
| `StoreLaws.StoreBlockCell` | store/importFunctions.go:19-111 | the same for the whole store, rows of other days unchanged |
| `StoreLaws.Redelivery` | store/importFunctions.go:19-111 | storing the same day block again changes no value, no quality and not the meta record |
| `StoreLaws.LaterWins` | mqttclient/importRuns.go:12-14 | the last block for a cell decides it, independent of the store before |
| `StoreLaws.TouchesOther` | utils/counterpoint.go:72-101 | exactly which cells of another metering point a block overwrites: only G.03 of a producer, the first slot of the next one |
| `StoreLaws.NonInterference` | store/importFunctions.go:179-216 | a block whose codes fit its metering point changes no cell of any other |
| `StoreLaws.MisfitInterferes` | store/importFunctions.go:208-215 | G.03 of a producer does overwrite the next one's cell |
| `StoreLaws.CoverOverwritesNeighbour` | store/importFunctions.go:208-215 | a concrete case: 5 kWh of a neighbour become 7 |
| `StoreLaws.HistoryUnique` | store/rawDataHelper.go:55-82 | over any history no two points of a direction share an index |
| `StoreLaws.OthersNeverTouch` | store/importFunctions.go:179-216 | over any history of fitting blocks of others, a metering point's cells stay |
| `StoreLaws.HistoryTidy` | store/importFunctions.go:192-216 | over any history no row holds a quality beyond its values |
| `StoreLaws.PeriodCovers` | store/importFunctions.go:233-249 | over any history the period of a metering point covers the days of all its stored blocks, from a start before now to an end after the epoch |
| `StoreLaws.PeriodTight` | store/importFunctions.go:233-249 | and its bounds are what they were or those of stored blocks of the point |
| `CodeMeaning.NewMeterSuits` | utils/counterpoint.go:11-21 | a new metering point gets the direction of the quantities of its first block |
| `CodeMeaning.StoredIsTold` | utils/counterpoint.go:72-101 | after storing a block, the reading of each quantity of its meter in a row of the day is the sum of the values of the entry that decides it, with the quality of one of them, and stays if no entry has a value for it |
| `CodeMeaning.ToldOrKept` | store/importFunctions.go:113-177 | some entry decides whenever one has a value: weighted codes before plain ones, later before earlier |
| `CodeMeaning.CodesMean` | utils/counterpoint.go:72-101 | a value that decides its row is what the bucket report adds up: G.01 of a producer as produced, P.01 as distributed, G.03 of a consumer as utilized, and consumption and share stand first and second; the T codes mean the same |
| `CodeMeaning.ReportMoves` | utils/counterpoint.go:72-101 | every total of the hourly report moves by what the reading of the block's own meter moves, and no other |
| `CodeMeaning.ReportTells` | utils/counterpoint.go:72-101 | in the hourly report the value replaces the meter's reading: consumed, shared, distributed, produced or unused, as its code says |
| `Buckets.RoundError` | utils/sliceUtils.go:13-16 | rounding moves a number by at most half a millionth onto the six-digit grid |
| `Buckets.Selects` | calculation/EEGCalculationV2.go:18-36 | the unit matrices pick one value of every meter, zero where the row is too short |
| `Buckets.ContainsCyclic` | calculation/timeWindows.go:62-67 | membership in a window is an arc of the day's circle, also over midnight |
| `Buckets.AppendSumsUp` | calculation/EEGCalculationV2.go:63-110 | the matrix columns hold, for every meter, the plain sum over the rows |
| `Buckets.SegmentsPartition` | calculation/EEGCalculationV2.go:163-181 | every row belongs to one day callback, in order |
| `Buckets.AddToWindows` | calculation/EEGCalculationV2.go:186-200 | every window's sum covers exactly its rows |
| `Buckets.CalcDaily` | calculation/EEGCalculationV2.go:156-208 | the callbacks get the days with the sums of their rows and of their windows' rows |
| `Buckets.MeterReport.AddBuckets` | calculation/EEGCalculationV2.go:358-403 | every window total gains the day's share of that window |
| `Buckets.MeterReport.AddEnergy` | calculation/EEGCalculationV2.go:430-477 | the period totals gain the day's value, rounded for a consumer |
| `Buckets.MeterReport.AddDays` | calculation/EEGCalculationV2.go:306-344 | only days inside from and until count, for totals and windows alike |
| `Buckets.MeterReport.Build` | calculation/EEGCalculationV2.go:408-428 | BASE, T1 and T2 add up to the rounded period total exactly; the windows come by key |
| `BucketBounds.ConsumerWindow` | calculation/EEGCalculationV2.go:392-398 | a consumer's window is within half a millionth per counted day of the energy used in it |
| `BucketBounds.ConsumerBase` | calculation/EEGCalculationV2.go:405-428 | BASE is within one half millionth per counted day, and one more per window, of the energy used outside of all windows |
| `BucketBounds.ReportMeter` | calculation/EEGCalculationV2.go:306-344 | one meter from rows to report: BASE, T1 and T2 add up to the billed total, and those of a consumer or producer are within these bounds of the energy of the counted days |
| `BucketBounds.ProducerBuckets` | calculation/EEGCalculationV2.go:396-398 | a producer's window is within half a millionth |
| `BucketBounds.ProducerBase` | calculation/EEGCalculationV2.go:405-428 | BASE of a producer is within two half millionths, and one more per window, of what it delivered outside of all windows |
| `BucketBounds.Partition` | calculation/EEGCalculationV2.go:405-428 | windows that do not overlap and what is outside of them make up the whole |
| `CountedDays.DayCounts` | calculation/EEGCalculationV2.go:156-208 | a day is counted exactly if it lies between the first and the last day of the meter, and the last one only if its first row is that of midnight |
| `CountedDays.LastDayMissed` | calculation/EEGCalculationV2.go:382-384 | a case at every day: the row of 00:00 is missing and the day is lost |
| `Engine.FillGap` | store/engine.go:265-283 | a fill row for each existing wall time of the gap, once and in order |
| `Engine.Query` | store/engine.go:258-291 | the consumer gets every row, and every other existing wall time between first and last once as a zero row, in order |
| `Engine.QueryStore` | store/engine.go:221-298 | the same over the store: no rows, an unreadable first row and a read error are told apart, rows without a time are left out |
| `Engine.JoinLaws` | store/aggregate_function.go:115-123 | joining qualities does not depend on order or repetition, and L1 adds nothing |
| `Engine.AddAmounts` | store/intraday_function.go:62-76 | adds the whole blocks of a line and joins their qualities |
| `Engine.Cache.CacheLine` | store/engine.go:150-172 | the line is added to its bucket, values and qualities; the bucket given out is complete; with a step that advances the cache's bucket is that of the line, also over gaps |
| `Engine.Aggregate.HandleLine` | store/aggregate_function.go:89-98 | for any step every slot summed over buckets and cache is that summed over the lines, and its quality joined over them is that joined over the lines |
| `Engine.Aggregate.Finish` | store/aggregate_function.go:111-113 | at the end every slot of the buckets has the sum and the quality of the lines |
| `Hourly.IntraDay.HandleLine` | store/intraday_function.go:24-37 | hours written and the hour in the cache hold what the lines of each hour of the day add up to, values and qualities, also of lines that end inside of a block |
| `Hourly.IntraDay.HandleEnd` | store/intraday_function.go:39-41 | every hour of the day holds exactly what its rows add up to |
| `Hourly.HoursMakeSum` | store/intraday_function.go:43-53 | the hours of the day make up the whole, values and qualities |
| `Hourly.FillsDoNotCount` | store/engine.go:265-283 | fill rows change no hour of the report |
| `Summaries.Summary` | store/summary_function.go:38-63 | the summary over all rows |
| `Summaries.SummaryValues` | store/summary_function.go:38-63 | the summary has the values of the rows exactly if the values of unfinished blocks add up to nothing |
| `Summaries.NothingDropped` | store/summary_function.go:39-41 | without negative values: exactly if no row holds a value in an unfinished block |
| `Summaries.SummaryDropsValue` | store/summary_function.go:39-41 | a case: the first stored value of a community's only consumer |
| `Summaries.SummaryQuality` | store/summary_function.go:45-60 | over any rows the summary has the quality of the hourly report exactly if every level from L2 on that it does not look at is matched by one it looks at |
| `Summaries.SummaryHidesQuality` | store/summary_function.go:45-49 | a case: an L3 value that the hour shows and the summary does not |
| `Summaries.FreshRowShowsQuality` | store/summary_function.go:56-60 | a case where the last producer is seen: a new row has more qualities than values |
| `Summaries.DayReports` | store/summary_function.go:38-63 | hourly report and summary of the same rows: same values and same qualities exactly under these conditions |
| `Hourly.HourlyReport` | store/intraday_function.go:24-76 | a query with its fill rows through the hourly report: every hour holds what the stored rows of that hour add up to, and the 24 hours make up the day |
| `Billing.QuarterHoursOnDay` | store/billingcheck_function.go:68-79 | the number of wall-clock quarter hours that exist on the day |
| `Billing.InspectQuality` | store/billingcheck_function.go:211-224 | whether the entry has a value and an L3 value; missing values are L0, values without quality L1 |
| `Billing.EntryCheck.HandleLine` | store/billingcheck_function.go:108-167 | per day the distinct quarter hours with a value, first and last one, L3 quarter hours, and the L3 days ascending without repeats |
| `Billing.BillingCheck.HandleLine` | store/billingcheck_function.go:108-167 | for all requested entries at once, with the totals of the community over all lines |
| `Billing.EntryCheck.CountMissing` | store/billingcheck_function.go:176-205 | for any rows the missing quarter hours of the active days; the days with some ascending, exactly those, only with data |
| `Billing.MissingPlusGot` | store/billingcheck_function.go:176-205 | for rows of the period quarter hours with a value and missing ones make up the existing ones |
| `RawDelete.InspectSlots` | store/deleteRawData.go:25-62 | measured value and whether the meter has data; zeroing changes only its own slots and no size |
| `RawDelete.DeleteRows` | store/deleteRawData.go:122-182 | over a scan, dry run and execute return the same count and sum; execute zeroes exactly the affected rows for any number of write batches; after a failure, also one inside of a write, every row is as before or zeroed |
| `RawDelete.DeleteRawData` | store/deleteRawData.go:85-183 | a wrong range and every fault of opening, reading and writing are errors, an unknown meter is nothing to delete; else the count is that of the affected rows of the whole store, and execute zeroes exactly those |
| `RawDelete.DeleteSpan` | store/deleteRawData.go:111-183 | scanning the days around the span is as good as scanning the store |
| `RawDelete.SpanCovered` | store/deleteRawData.go:111-120 | the scan reaches every row with a time in the span |
| `RawDelete.OneScan` | store/deleteRawData.go:111-120 | there is one scan in key order, so dry run and execute sum alike |
| `RawDelete.NothingKept` | store/deleteRawData.go:74-85 | after an execute run no row of the span holds data of the meter |
| `RawDelete.SecondRun` | store/deleteRawData.go:83-85 | a following run finds nothing |
| `RawDelete.OthersKept` | store/deleteRawData.go:20-24 | no cell of another metering point changes in any row |
| `RawDelete.OwnCells` | store/deleteRawData.go:42-60 | the meter's own cells are zero inside the span and unchanged outside |

## Left out

- HTTP, GraphQL, gRPC, the MQTT client, Keycloak and logging: plumbing over libraries.
- Excel import and export, the load curve report, the command line tools and the access checks.
- Badger and the codecs: the store is a map from row id to row and a map of metering points by name; a read or write fails or not. A failing write of rows may leave any rows.
- Decoding a message is a partial function with a size; base64, gzip, JSON and the size limit are not modelled.
- Real time-zone tables: a zone is any strictly ascending table of midnights with days of 23 to 25 hours, and "now" is fixed during one store. Midnights that do not exist are part of that table.
- A quality is its level 0 to 3, not the method string. Float64 noise is not modelled, numbers are real.
- The unstable sort of the values of a code: the model keeps the given order among values of the same second; `Rows.SortIsUnique` shows that distinct seconds leave no choice.
- Storage.BowStorage.StoreDayBatch: the rows are described for blocks that start, end and have their values on one day, as the importer groups them; error, log and meta record for all.
- Importer.ImportRun: the comparison of the rows with message by message import is for blocks that lie on their days, which fails only for a period that ends within the first quarter hour of a day; outcomes hold for all.
- ImportBatch.ImportNextRun: the same limit on the comparison of the rows.
- ImportBatch.ImportRuns: the same limit on the comparison of the rows.
- TenantImporter.TenantEnergyImporter.ImportEcId: the same limit on the comparison of the rows.
- TenantImporter.TenantEnergyImporter.ImportBatch: the same; and equality of arrays, not only of what is read, is stated for blocks that all carry a stored meter code.
- CodeMeaning.StoredIsTold: for blocks of one day whose codes suit the direction of the metering point; `StoreLaws.StoreBlockCell` and `StoreLaws.TouchesOther` hold for any codes.
- CodeMeaning.ToldOrKept: the same limit.
- CodeMeaning.CodesMean: the same limit, and for a value that is the only one of its entry for its row; two values of the autumn hour add up (`CodeMeaning.StoredIsTold`).
- CodeMeaning.ReportMoves: the same limit on blocks.
- CodeMeaning.ReportTells: the same limits as `CodeMeaning.CodesMean`.
- DaySplit.DayHoldsItsValues: for values of the period that cross no midnight; `DaySplit.DayHoldsItsParts` is the law for all.
- DaySplit.SplitKeepsEnergy: for such values; `DaySplit.SplitEnergyTimes` is the law for all.
- DaySplit.SplitEnergyExact: for values of the period that are not negative; `DaySplit.SplitEnergyTimes` is the law for all.
- TenantImporter.TenantEnergyImporter.EnsureDb: a store once opened stays open. The service closes stores only with their executor, and `DispatchTheorems.NeverClosedRunning` shows that no batch runs on a closed one.
- BatchExecution.TenantExecutor.ReplyPart: sending a reply and noting it is one step, and a panic comes before it, since the code after sending only sets a key of a map.
- Dispatch steps are finer than the critical sections: taking a tenant and reserving its executor are two steps, which only adds interleavings. Which sleeping lane a signal wakes and the order of map iteration are left open. Tenant queues are named by tenant; the invariant that every name held by a lane, a closer or ready has its entry replaces pointer identity.
- Fairness over time: steps between submissions are bounded and end with all messages handed over, if the Go scheduler lets every goroutine with a step run.
- DispatchSteps.ReserveKeeps: the machine lets any idle executor be the victim; `Dispatcher.TopicDispatcher.CapVictim` states which one the code takes.
- Pool: the map of pool objects and its lock; a handle is put back to the pool object it came from.
- Buckets: the intermediate values of the report, its share and consumption totals, matrices as objects (padding of the argument of Add), and parsing of window times.
- Engine: aggregation without a step. Lines must fit the counts of the meta record, as the code indexes by them, and have no quality beyond their values, which `StoreLaws.HistoryTidy` shows of stored rows.
- Billing: activation and deactivation are day numbers, without a bound if not given.
