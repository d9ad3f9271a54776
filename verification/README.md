# Verified model of the ingest pipeline

The repository moves batches of OTLP logs from a buffer into ClickHouse. Delivery is at least
once, commits happen in parallel and out of order, and a contiguous ack frontier decides what the
buffer may forget. This project models the parts that make the result come out right and proves,
for every input and every run, what they promise together.

`dafny verify dfyconfig.toml` checks everything.

## How the model is laid out

- **AckCoordinator**, **SourceActor**: the coordinator and the actor's completion arm as objects,
  each proved against a function on values.
- **Pipeline**: the whole runtime as a transition system. Its state is the coordinator, batch
  permits, bounded channels, units held by workers, the completion queue, the source's ack fields,
  the durable manifest, the server's table, its remembered tokens and requests still on the wire.
  Events are the actor's and the workers' steps, the server's, and the process starting and
  crashing at any point. **PipelineShape**, **PipelineUnits** and **PipelineSafety** build the
  invariant; **PipelineTheorems**, **PipelineWriters** (what a writer does, counted in the run
  itself), **PipelineProgress**, **PipelineDrain** and **PipelineRuns** (runs that do happen) hold
  the results.
- **Admission**: one admission cycle against single-descriptor cycles.
- **ByteBudget**: the byte budget as atomic micro-steps. **BudgetAccounts** has what holds under any
  limits, **BudgetBound** the byte bound, **BudgetExact** exactly when it holds and
  **BudgetStages** the stage counters;
  **ByteReservations** are its objects as one task uses them, **Backpressure** the settings check.
- **Decode**, **SourceEntries**, **Coordinates**, **Logs**, **Sorting**, **Chunker**, **Planner**,
  **PlannerTheorems**, **Token**: from a consumed batch to planned chunks with tokens.
  **LogFields** reads a serialized chunk back by column name.
- **RowBinary**, **Serializer**, **Decimals**, **Calendar**: the wire form and printed times.
- **Retry**: insert attempts, passes, the sink's failure mapping and the runtime's retries.
- **Composition**: all of it together for one feed.
- **Prelude**, **Sequences**, **Rows**: shared types and list facts.

## What is assumed of the outside

- `Consumer::next_descriptors(max)` returns at most `max` contiguous sequences, starting after the
  durable ack on restart; batch contents never change.
- `Consumer::ack_through` sets the durable frontier or fails and changes nothing.
- A `check_committed` that says committed means the whole range landed. The ClickHouse sink itself
  always answers unknown; the pipeline allows any sink.
- The server appends the rows of an insert, or drops an insert whose token it remembers. It may
  forget tokens at any time and may serve a request any number of times, long after its sender
  has gone.
- The digest of the chunking fingerprint is colon-free and tells apart the configurations actually
  used; nothing more is asked of it. Decoder and adapter version are fixed for one feed.
- Workers do not panic, and external calls return.

## Where code and documentation differ

The model follows the code.

- Marking is idempotent only while the range is in the map; afterwards a repeat is an error.
- `pending` also holds committed ranges behind a hole, so it is not bounded by the permits;
  `in_flight` is, by twice their number.
- The byte bound holds with the multiplier on the whole capacity. It counts every decoded batch
  that is still held, not only those being decoded.
- A failure after a transient answer is ambiguous except where no client could be built for the
  next attempt: that one is fatal.
- `EveryN` counts frontier advances, not ranges.
- Replay writes again at once; the check runs only after an ambiguous failure.

## Model

| member | source | states |
|---|---|---|
| `AckCoordinators.AckCoordinator.RegisterPending` | runtime/opendata-ingest-runtime/src/ack_coordinator.rs:179-257 | The object's registration is the value-level `Register`: same checks in the same order, one error each, and a rejected call leaves the object as it was |
| `AckCoordinators.AckCoordinator.MarkCommitted` | runtime/opendata-ingest-runtime/src/ack_coordinator.rs:267-289 | The mark succeeds exactly on a range in the map with that low and high, sets its bit and changes nothing else |
| `AckCoordinators.AckCoordinator.AdvanceFrontier` | runtime/opendata-ingest-runtime/src/ack_coordinator.rs:294-323 | The popping loop computes `Advance`: it pops committed ranges from the front while each starts where the frontier ends, and stops only when no more can be popped |
| `AckCoordinators.HistoryFaithful` | runtime/opendata-ingest-runtime/src/ack_coordinator.rs:179-323 | For every sequence of register, mark and advance calls: `pending` is the unpopped tail of the registered ranges, which are contiguous, and a sequence is committed exactly if the frontier covers it or its pending range is marked |
| `AckCoordinators.FrontierIsLongestPrefix` | runtime/opendata-ingest-runtime/src/ack_coordinator.rs:294-323 | After an advance the frontier is the largest h with everything from the first registered sequence through h committed, and absent exactly when the first is not committed |
| `AckCoordinators.FrontierNeverOverHole` | runtime/opendata-ingest-runtime/src/ack_coordinator.rs:294-323 | In every history, between advances too, no uncommitted sequence lies at or below the frontier |
| `AckCoordinators.OrderIndependent` | runtime/opendata-ingest-runtime/src/ack_coordinator.rs:267-323 | Two histories that registered the same ranges and committed the same sequences end in the same state after an advance, wherever marks and advances were interleaved |
| `AckCoordinators.GapBranchUnreachable` | runtime/opendata-ingest-runtime/src/ack_coordinator.rs:308-320 | The gap exit of the popping loop is never taken in any history |
| `AckCoordinators.InnerChecksOnlyAtMax` | runtime/opendata-ingest-runtime/src/ack_coordinator.rs:213-240 | The already-acked and overlap rejections can only hit a second registration of u64::MAX |
| `AckCoordinators.RegisterExactly` | runtime/opendata-ingest-runtime/src/ack_coordinator.rs:179-257 | In every history a registration is accepted if and only if low <= high and the range starts right after the last registered one, or for the first right after the constructor baseline if there is one (a baseline of u64::MAX admits u64::MAX); an inverted range, a wrong first range and a wrong next range each have their own error |
| `AckCoordinators.MarkExactly` | runtime/opendata-ingest-runtime/src/ack_coordinator.rs:267-289 | In every history a mark is accepted if and only if that very range was registered and the frontier has not passed it |
| `AckCoordinators.FirstIsBaselinePlusOne` | runtime/opendata-ingest-runtime/src/ack_coordinator.rs:188-200 | With a constructor baseline the first registered sequence is baseline + 1 if and only if the baseline is below u64::MAX |
| `AckCoordinators.MaxBaselineReadmitsMax` | runtime/opendata-ingest-runtime/src/ack_coordinator.rs:188-200 | The failing case: a baseline of u64::MAX admits u64::MAX again |
| `AckCoordinators.MarkTwice` | runtime/opendata-ingest-runtime/src/ack_coordinator.rs:267-289 | Marking a range a second time while it is in the map changes nothing |
| `AckCoordinators.MarkAfterPopFails` | runtime/opendata-ingest-runtime/src/ack_coordinator.rs:267-273 | Marking a range the frontier has passed is an error, in every history |
| `SourceActor.BufferSource.AckThrough` | runtime/opendata-ingest-runtime/src/source.rs:310-314 | An in-memory ack sets both ack fields and leaves the durable frontier alone |
| `SourceActor.BufferSource.FlushAcks` | runtime/opendata-ingest-runtime/src/source.rs:324-335 | A flush makes the pending ack durable and clears it; a failed one re-arms it and changes nothing |
| `SourceActor.FlushRetried` | runtime/opendata-ingest-runtime/src/source.rs:324-335 | Any number of failed flushes followed by a success reaches the state of one success |
| `SourceActor.Actor.OnCommitted` | runtime/opendata-ingest-runtime/src/runtime.rs:1113-1173 | The completion arm: mark, advance, count down, ack in memory only if the frontier passed the last ack, flush when the policy says so; a rejected mark changes nothing and a failed flush leaves the ack pending |
| `PipelineUnits.ActionTracked` | runtime/opendata-ingest-runtime/src/runtime.rs:1281-1420 | Every step of the actor and the workers keeps the account of units, permits, channels and the coordinator's shape |
| `PipelineUnits.WorkKeepsUnits` | runtime/opendata-ingest-runtime/src/runtime.rs:1520-1660 | Every worker step keeps all units in the stages or turns exactly one into its completion message |
| `PipelineSafety.EventSound` | runtime/opendata-ingest-runtime/src/runtime.rs:1064-1435 | Every event, including crash, restart, late and dropped inserts and forgotten tokens, keeps the whole invariant: ack fields, landed rows, jobs, table |
| `PipelineSafety.RunSound` | runtime/opendata-ingest-runtime/src/runtime.rs:1064-1435 | Every run from the empty system keeps the invariant |
| `PipelineTheorems.NoAckBeforeCommit` | runtime/opendata-ingest-runtime/src/runtime.rs:1113-1173 | In every reachable state durable ack <= last in-memory ack <= frontier, each counted from the durable ack the process found, and every sequence the frontier covers was reported by a returned write or a positive check of this same process |
| `PipelineTheorems.WrittenWasReported` | runtime/opendata-ingest-runtime/src/runtime.rs:2053-2081 | Whatever a process counts as written goes back to one event of its own: a write that returned or a check that said committed |
| `PipelineTheorems.DryRunTouchesNothing` | runtime/opendata-ingest-runtime/src/runtime.rs:1129-1134 | A dry run never changes the durable ack, sends no insert, and the table changes only by requests an earlier process had sent |
| `PipelineTheorems.UnitsConserved` | runtime/opendata-ingest-runtime/src/runtime.rs:1381-1420 | Every admitted sequence is in exactly one place until its completion is handled and no other sequence is anywhere; in_flight is the number of uncommitted ranges, at most 2 * max_inflight_batches, and positive whenever a completion waits; permits add up |
| `PipelineTheorems.RegisterNeverRejects` | runtime/opendata-ingest-runtime/src/runtime.rs:1381-1391 | No registration the actor makes is rejected |
| `PipelineTheorems.MarkNeverRejects` | runtime/opendata-ingest-runtime/src/runtime.rs:1113-1118 | No mark the actor makes is rejected |
| `PipelineTheorems.FlushPolicyHolds` | runtime/opendata-ingest-runtime/src/runtime.rs:1140-1173 | The ack_through values strictly increase; the actor flushes exactly when one frontier advance, or max(n, 1) of them under `EveryN(n)`, wait, fewer wait at any other time, and with one flush a group the durable ack is the last in-memory ack |
| `PipelineTheorems.SkipLosesNothing` | plugins/opendata-ingest-clickhouse/src/writer.rs:520-540 | Whenever the server drops an insert for its token, every row of it is in the table already |
| `PipelineTheorems.ExactlyOnce` | runtime/opendata-ingest-runtime/src/runtime.rs:1110-1173 | For every run, with any crashes, restarts, retries, ambiguous and late writes: the table deduplicated by (sequence, entry, record) holds each row of every durably acked sequence exactly once and only source rows |
| `PipelineTheorems.AckedDecodes` | runtime/opendata-ingest-runtime/src/runtime.rs:1812-1821 | Every durably acked sequence decodes and has all its rows in the table |
| `PipelineTheorems.BaselineKept` | runtime/opendata-ingest-runtime/src/ack_coordinator.rs:105-125 | Over every run the coordinator keeps the baseline it was given: the durable ack the process found if that was known, and none otherwise |
| `PipelineWriters.WriterFollowsAnswers` | plugins/opendata-ingest-clickhouse/src/writer.rs:278-348 | In every reachable state, counting the answers in the run itself: a writer's outer attempt is the number of checks that found its commit open, its chunk the number accepted since the last of those, and it is at the check exactly when max(W, 1) transient answers to the current chunk have come in this pass |
| `PipelineWriters.TransientDecides` | plugins/opendata-ingest-clickhouse/src/writer.rs:320-345 | One more transient answer sends the same chunk of the same pass again if fewer than max(W, 1) have come, else asks the check, and changes nothing else |
| `PipelineWriters.OpenDecides` | runtime/opendata-ingest-runtime/src/runtime.rs:2149-2272 | A check that finds the commit open starts the pass over at the first chunk while the run has had fewer than R such checks, else reports the write as fatal |
| `PipelineWriters.ReturnsAfterAll` | plugins/opendata-ingest-clickhouse/src/writer.rs:233-238 | A write returns only once the run shows every chunk of the plan accepted in this pass |
| `PipelineRuns.RowsRepeat` | runtime/opendata-ingest-runtime/src/runtime.rs:2149-2272 | For every n >= 2 there is a run, with a lost answer and requests served late, in which the first sequence is durably acked and its rows are in the table n times: deduplication by key is needed |
| `PipelineRuns.TokenSaves` | plugins/opendata-ingest-clickhouse/src/writer.rs:520-540 | The same retry with the token applied and remembered leaves the rows once |
| `PipelineRuns.PollAdmits` | runtime/opendata-ingest-runtime/src/runtime.rs:1314-1420 | From every reachable state with gates held a poll may bring any number of descriptors up to the gates: all are registered, they are the next in sequence, in_flight grows by that many and surplus permits go back |
| `PipelineProgress.SendsFindRoom` | runtime/opendata-ingest-runtime/src/runtime.rs:639-648 | A descriptor, fetched or sink-commit send never finds its channel full |
| `PipelineProgress.WorkersAccounted` | runtime/opendata-ingest-runtime/src/runtime.rs:635-648 | In every reachable state no stage has more at work than its concurrency, and the workers gone are exactly as many as the failures reported |
| `PipelineProgress.PollBounded` | runtime/opendata-ingest-runtime/src/runtime.rs:1284-1313 | In every reachable state a poll holds at most the configured number of gates, or of descriptors to register and send, and nothing is left to send outside it |
| `PipelineProgress.NoDeadlock` | runtime/opendata-ingest-runtime/src/runtime.rs:1064-1118 | In every reachable failure-free state with units in flight a step that is no failure is enabled if and only if it is not so that only failures are left: every decode at work is of a sequence that does not decode, every write at work has used up its retries with rows missing, and nothing else can move |
| `PipelineProgress.StuckReports` | runtime/opendata-ingest-runtime/src/runtime.rs:2077-2094 | Even there a worker can report its failure |
| `PipelineDrain.EventDrains` | runtime/opendata-ingest-runtime/src/runtime.rs:1096-1102 | After shutdown every step of the process lowers a measure over stages, retries, chunks and tries, and admission stays closed |
| `PipelineDrain.DrainTerminates` | runtime/opendata-ingest-runtime/src/runtime.rs:1065-1102 | From any reachable state after shutdown a process takes at most the measure's value more steps |
| `PipelineDrain.DrainGoesOn` | runtime/opendata-ingest-runtime/src/runtime.rs:1065-1102 | A failure-free drain that is not done can go on without a failure if and only if it is empty or not only failures are left |
| `PipelineDrain.CleanExit` | runtime/opendata-ingest-runtime/src/runtime.rs:1433-1435 | A clean exit leaves nothing pending and frontier = last registered high; the durable ack equals it too unless in dry run, and is the one found at start if nothing was registered |
| `Admission.AdmissionArm.TakeGates` | runtime/opendata-ingest-runtime/src/runtime.rs:1269-1313 | The gate loop takes at least one and at most max(knob, 1) gates, no more than the free permits or the capacity allow, and stops only at one of these three limits; each gate costs one permit and one estimate |
| `Admission.TakesMostOnce` | runtime/opendata-ingest-runtime/src/runtime.rs:1281-1290 | There is only one such number of gates, so the three limits determine it |
| `Admission.AdmissionArm.Cycle` | runtime/opendata-ingest-runtime/src/runtime.rs:1255-1420 | A cycle polls with exactly that many gates; d descriptors leave coordinator, permits, bytes, count and sent units as d single-descriptor cycles, all registered in order before any is sent, and surplus gates are given back exactly; a rejected registration sends nothing and gives all gates back |
| `Admission.BatchIsSingles` | runtime/opendata-ingest-runtime/src/runtime.rs:1281-1420 | The equality of the batched cycle and d single cycles, for every gate count that fits and every registrar |
| `BudgetAccounts.OpAccounts` | runtime/opendata-ingest-runtime/src/source_budget.rs:192-259 | One atomic operation of attach, reconcile or drop moves each account by exactly what it did, and a subtraction leaves a notification owed |
| `BudgetAccounts.EventAccounts` | runtime/opendata-ingest-runtime/src/source_budget.rs:72-259 | Every interleaved micro-step of any number of reservers and owners, under any limits and for any request, keeps the counters equal to the sums in 64 bits and every unwoken reserver covered by something live or a notification owed |
| `BudgetAccounts.CountersAreSums` | runtime/opendata-ingest-runtime/src/source_budget.rs:72-259 | In every run, under any limits and for any request, in_flight and each stage counter are the sums over the reservations modulo 2^64; when they are the sums themselves is said by CountExactly and StagesExact |
| `BudgetBound.BytesBounded` | runtime/opendata-ingest-runtime/src/source_budget.rs:72-259 | Under the exact condition below, in every reachable state in_flight is the sum over live reservations, in_flight + (m-1) * estimate * undecoded units <= m * capacity, and in_flight never passes the peak |
| `BudgetStages.NoWrapAround` | runtime/opendata-ingest-runtime/src/source_budget.rs:192-259 | Under the same condition no operation wraps in_flight round; and as long as the peak and what shrinks have left behind on the counters fit 64 bits, none subtracts more than is in a stage counter or adds more than fits |
| `BudgetStages.StagesExact` | runtime/opendata-ingest-runtime/src/source_budget.rs:223-246 | Every stage counter is the sum over the reservations attached to it whenever the peak and what shrinks have left behind fit 64 bits |
| `BudgetStages.StagesExactFor` | runtime/opendata-ingest-runtime/src/source_budget.rs:223-246 | For requests of exactly the estimate that is so with at most d decodes in the middle of a shrink if the peak and d estimates fit 64 bits |
| `BudgetStages.StagesExactly` | runtime/opendata-ingest-runtime/src/source_budget.rs:223-246 | With any number of decodes in the middle of a shrink, the stage counters are exact in every run of requests of at least the estimate if and only if capacity < max(estimate, 1), so that no claim gets through |
| `BudgetStages.TwoDecodersWrap` | runtime/opendata-ingest-runtime/src/source_budget.rs:229-232 | The failing case with two decodes: limits and a run of requests for the estimate under which in_flight is exact, a stage counter wraps to zero and the pending subtraction underflows it |
| `BudgetExact.PeakReached` | runtime/opendata-ingest-runtime/src/runtime.rs:1899-1914 | The peak is tight: some run of requests for exactly the estimate and of growth the oversize gate lets through holds exactly that many bytes |
| `BudgetExact.CountExactly` | runtime/opendata-ingest-runtime/src/source_budget.rs:81-104 | in_flight equals what is held in every run of requests of at least the estimate if and only if capacity < u64::MAX and capacity + (capacity / estimate) * (fault limit - estimate) fits 64 bits, growth counting only where the fault limit exceeds a positive estimate |
| `BudgetExact.GateExactly` | runtime/opendata-ingest-runtime/src/runtime.rs:1899-1914 | A decode may change a reservation once, and to `actual` bytes if and only if actual <= estimate * multiplier, saturated at 64 bits |
| `BudgetExact.DecideExactly` | runtime/opendata-ingest-runtime/src/source_budget.rs:88-104 | Below the maximal capacity a reserver that has loaded the count gets its bytes if and only if the count has not moved and they fit the capacity, and otherwise parks with nothing changed |
| `BudgetAccounts.NoLostWakeup` | runtime/opendata-ingest-runtime/src/source_budget.rs:81-104 | Under any limits and with any requests, a reserver parked with 0 < bytes <= capacity has been notified, or a release stands between subtract and notify, or some reservation is live, whatever its swap lost to |
| `BudgetAccounts.QuietServes` | runtime/opendata-ingest-runtime/src/source_budget.rs:81-104 | Once nothing is held and nothing owed, every reserver of at most the capacity gets its bytes in at most five steps of its own |
| `Backpressure.AcceptedAdmits` | runtime/opendata-ingest-runtime/src/runtime.rs:1000-1025 | With accepted settings the byte gate opens whenever the budget is empty |
| `Backpressure.RejectedNeverAdmits` | runtime/opendata-ingest-runtime/src/runtime.rs:1001-1008 | A reserver of an estimate over the capacity, which the check rejects first, stays in line in every run until it is cancelled |
| `Backpressure.AcceptedExactly` | runtime/opendata-ingest-runtime/src/runtime.rs:1000-1025 | Settings are accepted if and only if the estimate fits the capacity and permits, fetchers and decoders are all positive; each complaint says what is wrong and that nothing before it is |
| `BudgetExact.ReserveExact` | runtime/opendata-ingest-runtime/src/source_budget.rs:91-94 | The saturating capacity check is exact for every request if and only if capacity < u64::MAX |
| `ByteReservations.SourceByteBudget.TryReserve` | runtime/opendata-ingest-runtime/src/source_budget.rs:127-152 | Claims the bytes exactly if they fit now; zero bytes always fit; a 64-bit overflow never does |
| `ByteReservations.ByteReservation.AttachStage` | runtime/opendata-ingest-runtime/src/source_budget.rs:192-203 | Moves the held bytes from the old counter to the new one; attaching the same counter again changes nothing |
| `ByteReservations.ByteReservation.ReconcileTo` | runtime/opendata-ingest-runtime/src/source_budget.rs:223-246 | Moves the count and the attached counter by the same difference and notifies exactly on a shrink |
| `ByteReservations.ByteReservation.Drop` | runtime/opendata-ingest-runtime/src/source_budget.rs:249-259 | Releases the held bytes from the counter and the count and notifies, unless nothing is held |
| `Planner.Plan` | plugins/opendata-ingest-clickhouse/src/adapter/logs.rs:139-271 | The plan with its manifest scan and its chunk loop is the value-level `Planned` |
| `Planner.EmitChunks` | plugins/opendata-ingest-clickhouse/src/adapter/logs.rs:208-269 | The loop over current rows, current bytes and chunk index emits the greedy chunks in order, with the 32-bit index of each |
| `PlannerTheorems.PlanFails` | plugins/opendata-ingest-clickhouse/src/adapter/logs.rs:176-198 | The plan fails if and only if two records name different manifests |
| `PlannerTheorems.PlanCoversRecords` | plugins/opendata-ingest-clickhouse/src/adapter/logs.rs:158-164 | Concatenated, the chunks' rows are the sorted records, each mapped by the row function |
| `PlannerTheorems.PlanIsMinimal` | plugins/opendata-ingest-clickhouse/src/adapter/logs.rs:200-269 | The plan's chunks are an order-preserving split of the sorted records into non-empty groups; a group of more than one has at most max(max_chunk_rows, 1) records whose sizes add up to at most max(max_chunk_bytes, 1), and could not take the next record; no order-preserving split within these two numbers has fewer chunks |
| `PlannerTheorems.PlannedSettings` | plugins/opendata-ingest-clickhouse/src/adapter/logs.rs:222-242 | Every planned chunk carries the configured target, quorum and token switch, and its place modulo 2^32 as its index |
| `PlannerTheorems.PlanIgnoresOrder` | plugins/opendata-ingest-clickhouse/src/adapter/logs.rs:153-164 | Records with distinct coordinates give the same plan in any order of arrival |
| `PlannerTheorems.TokensDistinct` | plugins/opendata-ingest-clickhouse/src/adapter/logs.rs:205-237 | The tokens of one plan are pairwise distinct if and only if it has at most 2^32 chunks |
| `PlannerTheorems.SameTokenSameRows` | plugins/opendata-ingest-clickhouse/src/adapter/logs.rs:205-237 | Two plans of one batch under any two configurations the digest tells apart: equal tokens mean equal rows |
| `PlannerTheorems.PlannedChunkRoundTrip` | plugins/opendata-ingest-clickhouse/src/serializer/rowbinary.rs:20-48 | Every planned chunk serializes, and its bytes give back every column name, type and row |
| `Chunker.GreedyMinimal` | plugins/opendata-ingest-clickhouse/src/adapter/logs.rs:244-269 | The greedy cut is optimal for any record type, size function and limits |
| `Chunker.GreedyFills` | plugins/opendata-ingest-clickhouse/src/adapter/logs.rs:244-269 | No chunk but the last could have taken the record that follows it |
| `Sorting.SortedStable` | plugins/opendata-ingest-clickhouse/src/adapter/logs.rs:158-164 | The sort keeps records with equal coordinates in their order |
| `Sorting.SortedPermutation` | plugins/opendata-ingest-clickhouse/src/adapter/logs.rs:158-164 | Sorting forgets the arrival order of records with distinct coordinates |
| `Sorting.SortedRises` | plugins/opendata-ingest-clickhouse/src/adapter/logs.rs:158-164 | A sorted batch is a permutation that rises by sequence, within it by entry and within that by record, as one number |
| `Logs.LogRowTyped` | plugins/opendata-ingest-clickhouse/src/adapter/logs.rs:301-336 | Every value of a row has its column's type, and the coordinate columns carry the record's coordinates |
| `LogFields.PlannedFieldsRead` | plugins/opendata-ingest-clickhouse/src/adapter/logs.rs:301-336 | Serialize any chunk of any plan and read the bytes back: under each of the eighteen literal header names every row has that field of the record it was planned from, severity clamped to 0..255, an absent service name empty, the stamp moved to its own column |
| `LogFields.ContentTypes` | plugins/opendata-ingest-clickhouse/src/serializer/rowbinary.rs:55-84 | The type strings of the six content columns, by literal name |
| `LogFields.CoordinateTypes` | plugins/opendata-ingest-clickhouse/src/serializer/rowbinary.rs:55-84 | Those of the attribute, trace, sequence and entry columns |
| `LogFields.OriginTypes` | plugins/opendata-ingest-clickhouse/src/serializer/rowbinary.rs:55-84 | Those of the record, path, time, version and stamp columns |
| `Logs.ApproxSizeCounts` | plugins/opendata-ingest-otel/src/logs.rs:89-103 | The size estimate counts every byte of a record's text once, on top of the structure's 288 |
| `Logs.ParsesNumerals` | plugins/opendata-ingest-clickhouse/src/adapter/logs.rs:313-315 | What parses as a stamp is exactly the numerals of 64-bit numbers: an optional plus sign, any zeros in front, and the digits |
| `Logs.GatewayMoves` | plugins/opendata-ingest-clickhouse/src/adapter/logs.rs:301-316 | The stamp always leaves the resource map and every other attribute stays; its column carries the number it is a numeral of, and is null exactly where there is no stamp or it is no such numeral |
| `Token.TokenTells` | plugins/opendata-ingest-clickhouse/src/adapter/logs.rs:274-299 | One manifest, any characters in the names: equal tokens mean equal range, target, version, limits, quorum text and chunk index |
| `Token.TokenParses` | plugins/opendata-ingest-clickhouse/src/adapter/logs.rs:274-299 | An independent parser from the right reads index, fingerprint, version, high and low back, and what is left is `manifest:database.table` |
| `Token.PreimageLines` | plugins/opendata-ingest-clickhouse/src/adapter/logs.rs:88-107 | The hashed text is the adapter's mark and then the six settings, one `name=value` line each, in this order |
| `Token.TokensShared` | plugins/opendata-ingest-clickhouse/src/adapter/logs.rs:274-299 | Two configurations can give one token to different manifests if and only if their preimages and versions are equal and one `:database.table` properly ends in the other |
| `Token.TokenTellsManifest` | plugins/opendata-ingest-clickhouse/src/adapter/logs.rs:274-299 | Any manifests: unless the configurations meet that condition, equal tokens mean equal manifest, range, index, target and settings |
| `Token.LineFreeApart` | plugins/opendata-ingest-clickhouse/src/adapter/logs.rs:88-107 | Configurations whose database and table names hold no line break never meet it |
| `Token.LineBreaksImitate` | plugins/opendata-ingest-clickhouse/src/adapter/logs.rs:88-107 | Every target has configurations with line breaks in a table name that meet it; with different versions all the rest of it can hold, so the version belongs to the condition |
| `Token.QualifiedTells` | plugins/opendata-ingest-clickhouse/src/adapter/logs.rs:88-107 | The fingerprint's preimage together with `database.table` gives back every field, whatever the names hold |
| `Token.PreimageTells` | plugins/opendata-ingest-clickhouse/src/adapter/logs.rs:88-107 | The preimage alone gives back every field if the names hold no line break |
| `RowBinary.VaruintReads` | plugins/opendata-ingest-clickhouse/src/adapter/mod.rs:141-151 | The variable-length number is self-delimiting |
| `RowBinary.VaruintMinimal` | plugins/opendata-ingest-clickhouse/src/adapter/mod.rs:141-151 | No encoding of the same number is shorter |
| `RowBinary.VaruintTen` | plugins/opendata-ingest-clickhouse/src/adapter/mod.rs:141-151 | A 64-bit number takes at most ten bytes |
| `RowBinary.ValueReads` | plugins/opendata-ingest-clickhouse/src/adapter/mod.rs:95-137 | Every value is self-delimiting: its type and the bytes give it back, whatever follows |
| `Serializer.ByteBuffer.WriteVaruint` | plugins/opendata-ingest-clickhouse/src/adapter/mod.rs:141-151 | The loop appends exactly the value's encoding |
| `Serializer.ByteBuffer.WriteRowBinary` | plugins/opendata-ingest-clickhouse/src/adapter/mod.rs:95-137 | Appends exactly the value's encoding |
| `Serializer.Serialize` | plugins/opendata-ingest-clickhouse/src/serializer/rowbinary.rs:20-48 | The loops produce header and rows, or the error for an unknown column before the one for a row of the wrong width |
| `Serializer.RoundTrip` | plugins/opendata-ingest-clickhouse/src/serializer/rowbinary.rs:20-48 | A reader driven by the header's type strings recovers every name, type and row, for any known columns and matching rows |
| `Serializer.TypeTableCovers` | plugins/opendata-ingest-clickhouse/src/serializer/rowbinary.rs:55-84 | The type table covers every column of the log adapter with the right type |
| `Calendar.FindYear` | plugins/opendata-ingest-clickhouse/src/adapter/mod.rs:206-219 | The year loop ends for every day number, before and after 1970, at the year that holds it |
| `Calendar.FindMonth` | plugins/opendata-ingest-clickhouse/src/adapter/mod.rs:220-229 | The month loop stops inside the year because the month lengths add up to the year's |
| `Calendar.Parts` | plugins/opendata-ingest-clickhouse/src/adapter/mod.rs:196-232 | For every second count the fields are in range and the closed-form Gregorian day number of them gives the count back |
| `Calendar.PartsUnique` | plugins/opendata-ingest-clickhouse/src/adapter/mod.rs:196-232 | At most one set of fields in range stands for a second count |
| `Calendar.FormatDateTime64` | plugins/opendata-ingest-clickhouse/src/adapter/mod.rs:153-175 | Every 64-bit nanosecond count is printed as the fields of its instant |
| `Calendar.PrintedOrder` | plugins/opendata-ingest-clickhouse/src/adapter/mod.rs:153-175 | The printed form has 29 characters, determines and is determined by the count, and sorts as text exactly as the counts do |
| `Calendar.PrintedShape` | plugins/opendata-ingest-clickhouse/src/adapter/mod.rs:153-175 | The text is year-month-day, a space, hour:minute:second and a point with nine digits, every field in its width and reading back as its number |
| `SourceEntries.SplitIntoRawEntries` | runtime/opendata-ingest-runtime/src/source.rs:106-138 | The lockstep scan gives each entry the range the scan has reached, and an empty one if there are no ranges |
| `SourceEntries.ScanRightExactly` | runtime/opendata-ingest-runtime/src/source.rs:118-138 | For every number of entries: each gets the last range that starts at or before it if and only if the ranges that start inside the batch are in order and one of the first two starts at zero |
| `SourceEntries.EntryGetsItsRange` | runtime/opendata-ingest-runtime/src/source.rs:118-138 | Under that condition an entry carries its own bytes and the metadata and time of the range that covers it |
| `Decode.DecodeEntry` | plugins/opendata-ingest-otel/src/logs.rs:264-327 | The nested loops give one record a leaf, in order, numbered from zero |
| `Decode.DecodeLogs` | plugins/opendata-ingest-otel/src/logs.rs:134-143 | The records of all entries in order, or the first entry that does not parse |
| `Decode.OneRecordALeaf` | plugins/opendata-ingest-otel/src/logs.rs:264-327 | A decoded batch has exactly one record for every leaf of every entry |
| `Decode.LeafAt` | plugins/opendata-ingest-otel/src/logs.rs:264-327 | Every log of the nested tree is a leaf, at its place in document order, with the attributes and service name of its own resource and its own scope |
| `Decode.LeafLocated` | plugins/opendata-ingest-otel/src/logs.rs:264-327 | And every leaf is one log of the tree at that place: there are no others |
| `Decode.DecodedTree` | plugins/opendata-ingest-otel/src/logs.rs:264-327 | Every log of every entry's tree becomes a record with the log's own fields; each attribute is the last value given, the scope's over the log's; the service name is the last value of its key; the coordinates are the batch's, the entry's and the place in the entry modulo 2^32 |
| `Decode.CoordinatesDistinct` | plugins/opendata-ingest-otel/src/logs.rs:131-143 | Coordinates are pairwise distinct if and only if no entry has more than 2^32 leaves and no two entries that hold records carry the same 32-bit index |
| `Decode.CoordinatesIncrease` | plugins/opendata-ingest-otel/src/logs.rs:131-143 | They strictly increase if and only if, besides, the indices of those entries rise |
| `Decode.DecoderOrders` | plugins/opendata-ingest-clickhouse/src/adapter/logs.rs:153-164 | Where they increase the planner's sort leaves decoder output as it is |
| `Decode.SplitDecodesInOrder` | plugins/opendata-ingest-otel/src/logs.rs:131-143 | A batch as the source splits it, of at most 2^32 entries, decodes to strictly increasing coordinates if and only if no entry has more than 2^32 leaves, and is then already in plan order |
| `Decode.BuildColumns` | plugins/opendata-ingest-otel/src/logs.rs:222-231 | The parallel columns match the records' coordinates and times index by index |
| `Decode.MergeAttributes` | plugins/opendata-ingest-otel/src/logs.rs:329-335 | The loop merges the attributes that have a value, later ones replacing earlier ones |
| `Decode.MergedOrdered` | plugins/opendata-ingest-otel/src/logs.rs:329-335 | Every attribute map the decoder builds has its keys in order, each once |
| `Decode.InsertGets` | plugins/opendata-ingest-otel/src/logs.rs:329-335 | An inserted value is the one found under its key and every other key keeps its own |
| `Decode.MergedGets` | plugins/opendata-ingest-otel/src/logs.rs:329-335 | A merged attribute is the last value it is given, and what it was before if it is given none |
| `Retry.Server.ExecuteOnce` | plugins/opendata-ingest-clickhouse/src/writer.rs:351-409 | An attempt without a client sends nothing and is not retryable; otherwise the answer to the request decides |
| `Retry.ExecuteChunk` | plugins/opendata-ingest-clickhouse/src/writer.rs:278-348 | At most max(W, 1) attempts, all the same request, all but the last transient failures; success means an accepted last answer, exhaustion means every attempt was used on transient answers, a non-retryable failure means a final answer or no client, an unserializable chunk sends nothing |
| `Retry.ExecuteAll` | plugins/opendata-ingest-clickhouse/src/writer.rs:233-238 | Success means one pass in which every chunk was accepted in order; no request carries anything but its chunk's one body and token |
| `Retry.SinkWrite` | plugins/opendata-ingest-clickhouse/src/sink.rs:144-251 | A failure is ambiguous if and only if the last request got a transient answer (by status code) and it was not for want of a client that none followed; every other failure is fatal and then the commit was refused before sending, or its last answer was final, or a chunk did not serialize, or no client could be built; success means a whole pass with all rows |
| `Retry.Prepare` | plugins/opendata-ingest-clickhouse/src/sink.rs:151-207 | A commit is refused before anything is sent if and only if its ranges disagree, its plan fails or the plan's rows are not as many as its records |
| `Retry.LogAdapterKeepsRows` | plugins/opendata-ingest-clickhouse/src/sink.rs:199-207 | The row-drop guard never fires for the log adapter |
| `Retry.WriteWithRetry` | runtime/opendata-ingest-runtime/src/runtime.rs:2149-2272 | At most R+1 passes and (R+1) * n * max(W, 1) insert attempts, every one for a chunk index with that chunk's one body and token; success only if the log ends with one pass in which all n chunks were accepted, or the last check asked, after a transient answer, said committed; failure only if the last pass failed for one of the fatal reasons, or the last check failed, or R+1 passes were made and every check was open; every check before the last was |
| `Composition.FeedOptionsValid` | plugins/opendata-ingest-clickhouse/src/adapter/logs.rs:139-271 | The log adapter's plans, under any configuration of a family the digest tells apart, meet what the pipeline assumes of plans and tokens |
| `Composition.SplitFeedGood` | runtime/opendata-ingest-runtime/src/source.rs:106-138 | A feed whose batches the source has split meets what the result below asks, if entries, leaves and chunks stay within 2^32 |
| `Composition.FeedExactlyOnce` | plugins/opendata-ingest-clickhouse/src/sink.rs:188-251 | Decoder, planner, tokens and pipeline together, for feeds with batches that do not decode too: over every run every durably acked batch decodes, the deduplicated table holds the row of every record of every such batch exactly once, and nothing else but rows of the feed |
| `Composition.UndecodableNeverAcked` | runtime/opendata-ingest-runtime/src/runtime.rs:1812-1821 | A batch that does not decode holds the durable ack below it for ever |

## Left out

- Object store, buffer consumer, HTTP client, protobuf parsing, SHA-256, hex, JSON and URL encoding: code of other projects, represented by the assumptions above or by values already parsed.
- Metrics, timers, tracing, progress counters and the sink's byte count: nothing the pipeline decides depends on them.
- Configuration loading, start-up wiring, DDL text, the metrics server and the test hooks: they run before or beside what is modelled here.
- Envelope bytes and attribute values: an entry is taken as parsed, with its attributes already rendered as text. Run-id buckets feed a counter only.
- JSONEachRow: only the binary format is modelled; of the text format just the timestamp rendering.
- Sleeps and backoff: a step that is enabled may be taken at any time.
- Hard abort: the supervisor cancels it only after the actor has failed, so in the pipeline a failed process simply stays failed while its workers may go on. A write cut off in mid-pass is a crash there; the retry loop alone does not model it.
- The pipeline admits on permits alone; the byte budget is modelled on its own, so the pipeline allows more admissions than the runtime does. That bytes never block an empty pipeline is `AcceptedAdmits`.
- Worker tasks end when their channels close; a worker with nothing left to receive takes no step, which is what the pipeline has.
- `AckCoordinators` as a registry of several sources: each source has its own coordinator and they never interact.
- The library sort is a function here, not an update in place; what it returns is determined by order, permutation and stability, which are proved.
- BudgetBound.BytesBounded: for requests of at least the configured estimate, which is what admission asks for exactly; a smaller one could outgrow the oversize gate's bound.
- BudgetStages.StagesExact: a shrink lowers the in-flight count before the stage counter, so a stage counter can pass the count by what is left behind, and the sum must fit 64 bits with that. The model sets no limit on the decodes that stand there at once; the runtime's is its decode concurrency, for which `StagesExactFor` has the condition.
- ByteReservations: its objects are the operations of one task with nothing in between; all interleavings are in the micro-step machine.
- Composition.FeedExactlyOnce: one feed, one table and one adapter version; a changed version writes different rows on purpose, and `ReplacingMergeTree` then keeps the newer ones. No 32-bit index may run over, by the exact conditions of `CoordinatesDistinct` and `TokensDistinct`: beyond them coordinates or tokens repeat.
