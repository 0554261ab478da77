# Trip pipeline: a verified model

The repository streams trip events from a producer through Kafka and a Spark job into three Cassandra tables, with a
dead-letter queue for whatever cannot be written, a replay drain for that queue, an hourly rollup and a backfill into
Postgres, and a set of measurement tools. This project models that logic in Dafny and proves the claims the
repository's documentation makes for it. `dafny verify dfyconfig.toml` checks everything.

## What is modelled

**The reliability pipeline.** `Events` has the messages, the three tables (one map whose keys are the primary keys) and
the upserts an event becomes. `Retry`, `Sink` and `Stream` have the retry loop, the partition writer and the
micro-batch as imperative code over their counters, lists and high-water mark, each proved against a specification
function. `Replay` has the drain, `Producer` and `ProducerRun` the producer. How a write, a delivery or a clock reading
turns out is an argument: a script of outcomes that may be anything.

`Pipeline` puts these together as a state machine: the topic, the committed offset, the mark in memory, the queue, and
every write the tables ever received. A crash may strike at any point of a batch. `Refinement` drives the imperative
components and shows that whatever commands they are given, what they do is a run of that machine. So "zero silent
loss" (`Pipeline.ZeroSilentLoss`), replay convergence and "effectively once" (`Convergence`) are theorems about every
run, and `Stranding.RecoversExactly` says for exactly which events replay converges.

**The star schema.** `Analytics` has the loader that writes one corpus twice, `Queries` the five query pairs: filter,
join, group, aggregate, order, limit. `QueryTheorems.StarEqualsWide` says that each star query returns exactly the rows
of its baseline, for every corpus, every window and every physical order of the six tables.

**Measurement and the batch layer.** `Bits` and `Murmur2` have Kafka's hash over Python integers of any size
(`KnownHash` works one out), `PartitionSkew` the partition counts, `Percentile` the latency report, `Reconciliation` the
loss arithmetic of a chaos run, `Sweep` the throughput sweep, `Rollup` and `RollupTheorems` the hourly load, its drift
check and the backfill.

## Where the code does not do what it says

Each of these is kept as the code has it, and stated as a condition under which the claim holds.

- Zero silent loss (README.md:82) has a hole. Once a batch contains a late row, a row that parses but has no event time
  matches neither filter of streaming/stream_job.py:223 and :249. `StreamTheorems.BatchLosesExactly` says which rows a
  batch loses, in both directions, `Pipeline.LossesOfARun` which rows of a run are not accounted for;
  `StreamTheorems.NullTimeRowIsLost` is a row lost.
- A drain cannot store every late event. The stream's schema nulls missing keys and casts or nulls values of the wrong
  type; the direct write raises on both. `Stranding.StrandedIsReachable` gives a run of four healthy steps that strands
  such an event, and no run of batches, crashes and drains stores it after that (`Stranding.StrandedForever`). Draining,
  catching up and draining again stores an acceptable event from every reachable state if and only if the late policy is
  "process", or is "dlq" and the event has all its keys with values of their types: `Stranding.RecoversExactly`.
- The replay ceiling (docs/architecture.md:79) stops nothing, as no path increments `replay_count`
  (`Pipeline.CeilingNeverReached`). A record of the sink or the producer is sent through the topic again by every
  healthy drain there will ever be: `Convergence.CyclesForever`.
- The job starts at the end of the topic unless told otherwise (streaming/stream_job.py:154, :597). What Kafka
  acknowledged before the first start is neither written nor quarantined; the model's topic begins where the job does.
- With `max_attempts` of 1 a statement still gets two attempts: `SinkTheorems.BudgetHolds` is an equivalence with
  `max_attempts >= 2`. A statement that fails permanently on the fast path is recorded with a retry count of 0 though
  one attempt was made: `SinkTheorems.RetryCountIsHonest`.
- A dead letter is counted when the producer enqueues it, and has no delivery callback (producer/produce.py:176-178). If
  it is not delivered, nothing counts, retries or logs it: `Producer.LetterFateIsUnseen`. So acknowledged plus
  quarantined is a statement about counters, and the topics hold what was sent if and only if, besides, every dead
  letter arrived: `Producer.TopicsHoldAll`, and for the books that `ProducerRun.Run` ends with,
  `ProducerRun.RunConserves`. In the run of `ProducerRun.SunkLetterIsInvisible` an event is in neither topic, every
  counter balances, and the first flush leaves nothing.
- Failures that only the producer's second flush reports are never drained: `ProducerRun.SecondFlushIsNotDrained` says
  how many events that leaves out, for any run.
- The reconciliation counts every event in the dead-letter topic and every new row, also those of earlier runs (records
  left behind, or a backlog under a kept checkpoint), and takes off every duplicate the producer tried to send
  (producer/produce.py:235-237), also those Kafka never kept. All of these hide real loss: `Reconciliation.ResidualIs`,
  `Reconciliation.ForeignRecordsHideLoss`, `Reconciliation.BacklogHidesLoss`, `Reconciliation.UnkeptDuplicateHidesLoss`.
- A backfill from anything but a whole hour reads nothing, and over a window that is not a whole number of hours the
  empty-backfill alert stays silent about that: `RollupTheorems.UnalignedReadsNothing`, `RollupTheorems.EmptyAlert`.
- The rows a rollup reports as loaded are those of its last page, all of them only if one page holds them; and its drift
  check lets a stale row pass when a trip was extracted twice: `RollupTheorems.RollUpHour`.
- The drift check is a task of its own, and a backfill may load the hour before it. It then alerts though nothing was
  lost, as in `RollupTheorems.FalseAlert`; `RollupTheorems.RollupVerifies` says exactly when.
- A sweep whose scenario leaves no report raises when it prints the verdict (`Sweep.TestRates`), and one told to stop
  after no failures tests one rate only (`Sweep.StopAtOnce`).

## Model

| member | source | states |
|---|---|---|
| Events.BuildStatements | streaming/cassandra_sink.py:145-188 | a row raises or becomes one upsert per configured table, and the rows that build are exactly the acceptable ones that carry every column the tables name |
| Events.AcceptedMeans | streaming/cassandra_sink.py:130-153 | acceptable is field by field: two UUIDs, an event time, a city and a driver that are not empty, a fare and a production time |
| Events.FirstDefect | streaming/cassandra_sink.py:130-142 | a row is rejected for the first required field it lacks, then for a null number, and otherwise not |
| Events.StatementKeys | streaming/cassandra_sink.py:155-186 | one statement for each table asked for, keyed by the trip; by driver, UTC day, time and trip; by city, UTC hour and trip, in milliseconds of the epoch |
| Events.StatementColumns | streaming/cassandra_sink.py:163-186 | every column of a statement is the event's own, and each table binds exactly its own columns |
| Events.StreamColumns | streaming/stream_job.py:170-178 | on the stream a column is the message's own where the message has it, null where not |
| Events.SparkRowBuilds | streaming/stream_job.py:170-178 | on the stream, where missing keys arrive as nulls, acceptance alone decides whether a row builds, and the padding changes no upsert |
| Events.DirectWriteBuilds | replay/dlq_tools.py:176-180 | in the drain a payload builds and binds exactly if it is acceptable and complete: every key there, with null or a value of its type |
| Events.RowTellsTheEvent | streaming/cassandra_sink.py:163-186 | rows of trips_by_id agree if and only if the events do, missing keys counting as null, and then the rows of the other two tables agree too |
| Events.TablesAreTheSetOfUpserts | docs/architecture.md:36-47 | after any sequence of consistent writes the tables hold exactly the set of upserts written, ingestion times aside |
| Events.EffectivelyOnce | docs/architecture.md:44-47 | two write sequences with the same set of upserts leave the same tables, whatever their order, duplication or chunking |
| Events.EffectivelyOnceExactly | docs/architecture.md:36-47 | order and duplication are invisible if and only if no two upserts of one key differ |
| Events.EventsAreConsistent | docs/architecture.md:38-42 | if a trip id determines the event, no two upserts of a key differ in any table |
| Events.TablesAreAFunctionOfTheEvents | producer/events.py:149-155 | the tables are a function of the set of events written, and hold every event's row under its key in each table |
| Dlq.BuildRecord | common/dlq.py:50-86 | the payload is carried verbatim, the reason cut at 2000 characters, the replay count left at its default |
| Retry.RetryStats.Merge | common/retry.py:65-72 | merging adds every counter and every reason count |
| Retry.DelayInBand | common/retry.py:99-112 | a delay is never negative and stays within the jitter band of its clamped schedule entry |
| Retry.DelayMeans | common/retry.py:99-112 | a delay runs evenly with the draw from base less spread, cut off at 0, to base plus spread, the base being the schedule's entry or its last one |
| Retry.LastAttempt | common/retry.py:138-150 | every attempt before the last was retried, and the last is retryable only if the budget is spent |
| Retry.CallWithRetry | common/retry.py:118-166 | the outcome, every counter and the exact list of sleeps are those of the first attempt that is not retried or the last the budget allows |
| Retry.CallIsDecided | common/retry.py:135-166 | of max(1, max_attempts) attempts the first that is not a transient failure, or the last, decides: success, exhaustion with that many attempts and that error, or an exception; and the counters and the names recorded follow |
| Retry.RetryBudget | common/retry.py:135-166 | between 1 and max(1, max_attempts) attempts, one of successes and exhausted failures raised by one, attempts accounted for by outcomes, total backoff between the sums of the lowest and highest delays of the schedule |
| Retry.BackoffBetween | common/retry.py:151-158 | the sleeps are the positive waits and add up to the recorded backoff, which lies between the sums of the bounds |
| Retry.Batched | common/retry.py:169-178 | the chunks concatenate to the input, none is empty or too long, and all but the last are full |
| Retry.ChunksUnique | common/retry.py:169-178 | those conditions determine the chunks |
| Sink.BuildChunk | streaming/cassandra_sink.py:253-272 | a chunk's work is the statements of its acceptable rows in order, its rejects one parse record for each other row |
| Sink.FastPath | streaming/cassandra_sink.py:301-310 | one attempt per statement, the failures in order, and the counters of those attempts |
| Sink.RetryStatement | streaming/cassandra_sink.py:313-357 | one failed statement ends written, quarantined with its attempts plus one, or by killing the task, and the counters say which |
| Sink.RetryPath | streaming/cassandra_sink.py:313-357 | the records, counters and writes of all the failures, in order |
| Sink.WritePartition | streaming/cassandra_sink.py:209-382 | over any rows and outcomes the records emitted, the statistics and the upserts that reach the tables are those specified statement by statement, whatever the chunking |
| Sink.RangesCompose | streaming/cassandra_sink.py:248-310 | what a range of statements records is what its two parts record |
| SinkTheorems.RowsSplit | streaming/cassandra_sink.py:253-272 | each row gives one parse record and no statements, or one statement per table |
| SinkTheorems.RejectsAreRows | streaming/cassandra_sink.py:253-272 | every row that is not acceptable is quarantined as unparseable with the text of what is wrong with it and a retry count of 0 |
| SinkTheorems.JobsAreUpserts | streaming/cassandra_sink.py:253-257 | the statements are exactly the upserts of the acceptable rows in the configured tables |
| SinkTheorems.StatementConservation | streaming/cassandra_sink.py:248-357 | tables times accepted rows is rows written plus sink records, for every partition and every outcome sequence |
| SinkTheorems.StatementSettles | streaming/cassandra_sink.py:301-357 | each statement's upsert reached its table or its row has a sink record |
| SinkTheorems.StatementIsDecided | streaming/cassandra_sink.py:226-357 | two attempts are always allowed, more if max_attempts is more, and the first that is not a transient failure, or the last, decides |
| SinkTheorems.StatementIsSettled | streaming/cassandra_sink.py:301-357 | a statement whose attempts go on failing transiently is quarantined with all the attempts the policy allows, a permanent failure quarantines it at once, one that succeeds in time is written |
| SinkTheorems.UpsertsExactly | streaming/cassandra_sink.py:301-357 | the upserts a partition leaves in the tables are exactly those of the statements of which some attempt made succeeded, or failed after it had written |
| SinkTheorems.ResultMeans | streaming/cassandra_sink.py:359-382 | the figures a partition reports, counted statement by statement: written, written by a retry, retries spent, attempts made, the names of all failures, the backoff waited, and rows rejected |
| SinkTheorems.CountersAgree | streaming/cassandra_sink.py:301-382 | rows written are successes, attempts are successes plus recorded reasons, the two retry totals agree, sink records are exhausted failures plus permanent ones of the fast path |
| SinkTheorems.RetryCountIsHonest | streaming/cassandra_sink.py:316-340 | a sink record's retry count is the number of attempts made exactly when the statement went through the retry loop |
| SinkTheorems.BudgetHolds | streaming/cassandra_sink.py:226-232 | every statement stays within max_attempts, whatever the outcomes, if and only if max_attempts is at least 2 |
| Stream.WatermarkTruncates | streaming/stream_job.py:87-94 | the allowed lateness is the declared delay cut to whole seconds, for exactly the known units |
| Stream.Stripped | streaming/stream_job.py:87-94 | the unit is the word with every "s" at its end taken off |
| Stream.KeptMembers | streaming/stream_job.py:214-249 | the rows handed to the sink are those that parse and are not late, less the ones without an event time whenever some row is late |
| Stream.Evaluate | streaming/stream_job.py:252-256 | one evaluation of the sink runs every partition, and yields their records, statistics and upserts |
| Stream.TripStream.MergeStats | streaming/stream_job.py:291-313 | the merged statistics are the sum of the partitions' |
| Stream.TripStream.ProcessBatch | streaming/stream_job.py:183-280 | what a batch publishes and writes, the new mark and the report, each a function of the old mark, the rows and the outcomes; a batch that raises changes neither mark nor reports |
| StreamTheorems.WatermarkRefinement | streaming/stream_job.py:216-275 | the mark, taken only from rows that survive the late filter, is max(0, latest event time of all parseable rows), late ones included, however the rows were cut into batches |
| StreamTheorems.MarkMeans | streaming/stream_job.py:270-275 | that mark spelled out: at least every event time of a row that parses, equal to one of them or to the epoch, and none exactly as long as no row that parses has an event time |
| StreamTheorems.RunMarkIsOfAllRows | streaming/stream_job.py:270-275 | the same from any earlier mark |
| StreamTheorems.MarkNeverDecreases | streaming/stream_job.py:275 | no run of batches lowers the mark |
| StreamTheorems.FinerCutsQuarantineMore | streaming/stream_job.py:216-249 | of two cuts of the same rows the finer flags as late every row the coarser does |
| StreamTheorems.FinestFlag | streaming/stream_job.py:216-223 | cut into single rows, a row is late exactly if it is behind the mark of all rows before it |
| StreamTheorems.FinestFlagMeans | streaming/stream_job.py:216-223 | fed row by row, a fresh job calls a row late exactly if it parses, lateness is enforced, and its event time is earlier than the mark by more than the lateness allowed |
| StreamTheorems.LateMeansBehind | streaming/stream_job.py:220-223 | under no cut is a row within the allowed lateness of the maximum before it called late |
| StreamTheorems.MergeOrderIsIrrelevant | streaming/stream_job.py:300-312 | merged statistics do not depend on the order of the partitions |
| StreamTheorems.AgreementsMerge | streaming/stream_job.py:300-312 | merging keeps all four agreements of the counters |
| StreamTheorems.MergedMeans | streaming/stream_job.py:291-313 | every counter of a batch, and the count of every failure reason, is the sum over its partitions |
| StreamTheorems.BatchCountersAgree | streaming/stream_job.py:262-268 | the four agreements hold of the batch as a whole |
| StreamTheorems.RowIsAccounted | streaming/stream_job.py:194-266 | a row that does not vanish is in the queue as unparseable or late, or written or quarantined table by table |
| StreamTheorems.QuarantinedAs | streaming/stream_job.py:194-248 | an unparseable row, and under the dead-letter policy a late one, is published with its reason and a retry count of 0 |
| StreamTheorems.ReportMeans | streaming/stream_job.py:187-277 | a batch reports its rows, those of them that do not parse and those that are late, the sink's records and the merged counters |
| StreamTheorems.GoodKeepsAll | streaming/stream_job.py:194-214 | a row goes on as often as it came if it parses, and not at all if not |
| StreamTheorems.PartitionsKeepAll | streaming/stream_job.py:252-254 | every row reaches the sink in its own partition, as often as it came |
| StreamTheorems.BatchLosesExactly | streaming/stream_job.py:223-249 | a batch that completes accounts for a row if and only if the row does not vanish: late rows outside the dead-letter policy, and rows without event time when some row is late |
| StreamTheorems.NullTimeRowIsLost | streaming/stream_job.py:249 | a late row beside a row without event time loses the latter, whatever the outcomes |
| StreamTheorems.BatchDlqOnly | streaming/stream_job.py:194-266 | every record a batch publishes is that of a row of the batch, at the stage the row deserves, with replay count 0 |
| StreamTheorems.BatchUpsertsOnly | streaming/stream_job.py:252-262 | every upsert a batch writes is that of an acceptable row of the batch that is not late |
| StreamTheorems.EvaluationMeans | streaming/stream_job.py:252-266 | one evaluation of the sink is that of its partitions: what is queued, written and reported is what some partition queues, writes and reports, and it completes if and only if all of them do |
| StreamTheorems.EvaluationsMade | streaming/stream_job.py:252-266 | the sink is evaluated for the statistics, for the count, and a third time only if there are records to publish; every evaluation writes, and the records published number as the report says |
| Replay.SendBack | replay/dlq_tools.py:234-257 | the messages sent and the counts of sent and failed, with late delivery errors moved from one to the other |
| Replay.SentExactly | replay/dlq_tools.py:234-257 | a message reaches the topic if and only if it is JSON and some record of it is delivered, or reported as failed after it was persisted |
| Replay.DirectWrite | replay/dlq_tools.py:148-188 | the writes made and the counts of records written whole and failed |
| Replay.Drain | replay/dlq_tools.py:191-290 | each record is sent back, written directly or parked by its stage; the report counts the records whose delivery was confirmed and those stored whole (acceptable, complete, all three statements succeeding), and its accounting balances |
| Replay.RoutedMembers | replay/dlq_tools.py:209-220 | a record is on a route's list exactly if it was read and is routed there |
| Replay.RoutesByStage | replay/dlq_tools.py:209-220 | a record read is sent back, written directly or parked by its stage, and parked whatever its stage once it has been replayed max_replays times |
| Replay.ReadsFromTheFront | replay/dlq_tools.py:64-108 | a drain reads the queue from its first record, all of it or as much as the limit, and never less than one record |
| Replay.DirectNoneFailed | replay/dlq_tools.py:148-188 | if no direct write failed, all three upserts of every record drained are in the tables |
| Replay.SendsNoneFailed | replay/dlq_tools.py:234-257 | if no re-injection failed, every payload was sent once, in order |
| Replay.DirectWritesOnly | replay/dlq_tools.py:174-181 | the drain writes only upserts of the complete, acceptable events it drained |
| Replay.DirectWritesReach | replay/dlq_tools.py:174-181 | a complete, acceptable record whose statements succeed is written to all three tables |
| Replay.DirectWritesExactly | replay/dlq_tools.py:170-188 | exactly what a direct write puts in the tables: of each acceptable, complete event the statements in their order up to the first that fails, and that one if it had written |
| Pipeline.StepKeepsInv | streaming/stream_job.py:183-280 | every step keeps the invariant: batches, also with records or writes repeated by a retried task, crashes at any point, drains, the live producer |
| Pipeline.ZeroSilentLoss | README.md:82-85 | after every run each committed row with an event time is quarantined or, table by table, written or quarantined; no table holds a row no given event produced; the mark is that of the rows since the last start |
| Pipeline.LossesOfARun | streaming/stream_job.py:223-249 | a row committed during a run is accounted for whether or not it has an event time, unless its batch missed it; only rows without an event time are missed, and none under the process policy |
| Pipeline.RunGrows | docs/architecture.md:44-47 | no run takes anything from the topic, the queue or the set of upserts |
| Pipeline.CeilingNeverReached | replay/dlq_tools.py:211-213 | in every reachable state, with a ceiling of at least 1, a drain parks a record exactly if its stage is parse |
| Convergence.ReplayConvergence | replay/dlq_tools.py:209-260 | from every state that keeps the invariant, a drain, the stream catching up through any batches, restarts, drains and new events, and a second drain put every event given that is complete, or cannot be called late, into every configured table |
| Convergence.TablesAreTheEvents | docs/architecture.md:30-47 | if a trip id determines the event and nothing new arrives, the tables are then exactly the rows of the events given, ingestion times aside |
| Convergence.CyclesForever | docs/architecture.md:67-79 | over any run the topic gains at least one more copy of a quarantined sink or producer payload for every healthy drain |
| Stranding.RecoversExactly | replay/dlq_tools.py:209-260 | an acceptable event is in every configured table after drain, catch-up and drain, from every reachable state and for every such recovery, if and only if the late policy is process, or dlq with the event complete |
| Stranding.StrandedIsReachable | replay/dlq_tools.py:148-188 | every acceptable event that is incomplete under the dead-letter policy, or any under the drop policy, is stranded by four healthy steps, once a later event leads it by more than the lateness |
| Stranding.StrandedForever | replay/dlq_tools.py:174-185 | after every run of batches, crashes and drains, healthy or not, a stranded event is still stranded: known, in the queue at most as late, in no table |
| Refinement.RunBatch | streaming/stream_job.py:183-280 | one batch of the imperative job, and the restart if it dies, is an enabled step of the machine |
| Refinement.RunReplay | replay/dlq_tools.py:191-290 | one drain is an enabled step of the machine, wherever the messages it sends back land |
| Refinement.Drive | streaming/stream_job.py:183-280 | any sequence of commands to the components is a run of the machine, and so keeps its invariant |
| Producer.ProducerRunner.OnDelivery | producer/produce.py:128-137 | a callback moves one message to the acknowledged or the failed ones |
| Producer.ProducerRunner.Send | producer/produce.py:144-170 | a send enqueues the message, quarantines it when retries are exhausted, or fails with an exception nobody catches; the retry statistics are those of the call |
| Producer.SendIsDecided | producer/produce.py:144-184 | of the attempts the policy allows the first that is not a transient failure, or the last, decides: the event is enqueued, or a dead letter with the attempts made and the last error is, or refused, or nothing changes |
| Producer.ProducerRunner.DrainFailures | producer/produce.py:186-191 | every failure pending is quarantined once, in order, and none stays |
| Producer.DrainMeans | producer/produce.py:186-191 | a drain with no refusal enqueues one dead letter for each failure, in order, with its reason and max_attempts as its retry count |
| Producer.SentConserves | producer/produce.py:144-184 | a send keeps the books: everything submitted is in exactly one place, a dead letter in flight, arrived or sunk being three of them; only a refused dead letter is lost |
| Producer.DrainedConserves | producer/produce.py:186-191 | so does a drain, after which no failure is pending; without a refusal it loses nothing |
| Producer.ConservedCounts | producer/produce.py:58-63 | in numbers: submitted is acknowledged plus counted as dead letters exactly when nothing is in flight, pending or refused |
| Producer.TopicsHoldAll | producer/produce.py:172-184 | the two topics hold exactly what was submitted if and only if the counters balance and no dead letter is under way or sunk |
| Producer.LetterFateIsUnseen | producer/produce.py:176-178 | whether a dead letter arrives changes nothing that the runner keeps |
| ProducerRun.Run | producer/produce.py:194-258 | what the run generated, duplicated and handed over is a function of the clock readings, and so are the books it ends with, by way of those before the close; an exception ends it only if some send raises one; if the first flush leaves nothing and no dead-letter produce raises, generated plus duplicates is acknowledged plus dead letters counted |
| ProducerRun.PassMeans | producer/produce.py:211-240 | a pass takes in the events due, each duplicate right after its event, and leaves no failure waiting; with nothing due it only polls, and what fails then waits |
| ProducerRun.RunBooksMeans | producer/produce.py:208-240 | the books of a run in which no send raises keep everything handed over, in order, and lose nothing that is not refused |
| ProducerRun.RunConserves | producer/produce.py:194-258 | of the books before the close that Run hands out: generated plus duplicates is acknowledged plus dead letters counted if and only if none was refused and the second flush acknowledges every event still in flight; the two topics then hold what was sent if and only if every dead letter arrived |
| ProducerRun.SecondFlushIsNotDrained | producer/produce.py:251-255 | the failures the second flush reports are exactly those left over, and so many events are neither acknowledged nor counted as dead letters |
| ProducerRun.SunkLetterIsInvisible | producer/produce.py:245-255 | a run on a fresh runner that sends one event and loses it while its counters balance and its first flush leaves nothing: delivery fails, the last drain enqueues the dead letter, and that does not arrive |
| ProducerRun.NeverAheadOfRate | producer/produce.py:211-228 | at every pass no more has been generated than elapsed time times rate, and no pass generates more than 2000 |
| ProducerRun.CatchesUp | producer/produce.py:211-228 | a pass below the cap leaves less than one event due |
| ProducerRun.AttainmentIsAtMostFull | producer/produce.py:285-287 | the attainment reported is at most 100 per cent |
| ProducerRun.AttainmentMeans | producer/produce.py:285-287 | the attainment is what was generated as a percentage of rate times elapsed time |
| ProducerRun.UnpacedBursts | producer/produce.py:211-221 | without a rate every pass generates 2000 events |
| Analytics.DriverRoundTrip | bench/load_analytics.py:176 | the key read back from a driver id is the key it was written from |
| Analytics.DateKeysAreDistinct | bench/load_analytics.py:81 | the number read off year, month and day names one day |
| Analytics.DateKeyReads | bench/load_analytics.py:81 | the digits of a date key are year, month and day |
| Analytics.LoadDimensions | bench/load_analytics.py:71-123 | the dimension rows, with dates padded on either side, and key maps that agree with them |
| Analytics.DimensionsMean | bench/load_analytics.py:71-123 | the dates run from two days before the span to three after, with their weekday and ISO week; cities and vehicles have serial keys from 1, drivers their number |
| Analytics.GenerateAndLoad | bench/load_analytics.py:126-202 | the wide and the fact table are the images of the same trips, and how often the buffers were flushed leaves no trace |
| QueryTheorems.KeyOrder | bench/analytics_queries.py:45 | the order of the grouping columns is a strict total order |
| QueryTheorems.ListingMembers | bench/analytics_queries.py:22-31 | a listing has one row for each key that occurs, and no others |
| QueryTheorems.ListingIsSorted | bench/analytics_queries.py:31 | a listing is in the order of its ORDER BY |
| QueryTheorems.SortedIsUnique | bench/analytics_queries.py:31 | an ordered list is determined by its members |
| QueryTheorems.ListingCountsAll | bench/analytics_queries.py:24-30 | the trip counts of a listing add up to the tuples found: each is in exactly one group |
| QueryTheorems.LimitKeepsTheFirst | bench/analytics_queries.py:61-62 | only the driver query is cut, to its first 25 rows, and every row kept comes before every row cut |
| QueryTheorems.RoundIsNearest | bench/analytics_queries.py:27 | rounding gives the nearest multiple of the unit, halves away from zero |
| QueryTheorems.RowMeans | bench/analytics_queries.py:24-31 | every figure of a row is that of exactly the tuples of its key: count, rounded sum, rounded means and share |
| QueryTheorems.AnswerIsInOrder | bench/analytics_queries.py:61-62 | drivers come by revenue from the top and then by name, all else by text in dictionary order and then number by number |
| QueryTheorems.AnswerLeavesOut | bench/analytics_queries.py:47-78 | every key that occurs has a row, except that only 25 drivers have one, and then no driver left out has made more than any of these |
| QueryTheorems.SurgeShareIsAPercentage | bench/analytics_queries.py:154-156 | surged trips are at most the trips, and the rounded share lies between 0 and 100 |
| QueryTheorems.AnswerOfPermutation | bench/analytics_queries.py:3-6 | what a query returns depends only on the bag of tuples its plan finds, limits and rounded aggregates included |
| QueryTheorems.TheDate | bench/analytics_queries.py:40 | a fact row joins exactly one row of the date dimension, that of its day |
| QueryTheorems.JoinFindsTheText | bench/analytics_queries.py:39-40 | the other join yields exactly the text the wide row carries inline |
| QueryTheorems.SameTuple | bench/analytics_queries.py:81-111 | precomputed completion, surge, weekend, hour, ISO week and date window are the baseline's inline expressions |
| QueryTheorems.StarEqualsWide | bench/analytics_queries.py:1-9 | each of the five star queries returns exactly the rows of its baseline, in order and with the top-25 limit, for every corpus, window and physical order of the tables |
| Murmur2.Murmur2 | bench/partition_skew.py:23-63 | the masked loop over wide integers computes the 32-bit function, for every byte string |
| Murmur2.TailIsLittle | bench/partition_skew.py:48-55 | the bytes after the last word are read little-endian, as words are |
| KnownHash.FoobarHashes | bench/partition_skew.py:23-63 | the hash of the bytes of "foobar" is 0xD0E47BBE, which fixes the seed, the multiplier and the shifts |
| Murmur2.WordChangesTheHash | bench/partition_skew.py:38-46 | keys of equal length that differ only inside one aligned word have different hashes |
| Murmur2.TailChangesTheHash | bench/partition_skew.py:48-55 | so have keys of equal length that differ only after the last aligned word |
| Murmur2.AbsorbIsInjective | bench/partition_skew.py:42-46 | from one state, different words lead to different states, and the other way round |
| Murmur2.FinishIsInjective | bench/partition_skew.py:57-60 | the closing mix loses nothing |
| Murmur2.PartitionOf | bench/partition_skew.py:67-68 | partitions lie in [0, n) |
| Murmur2.PartitionIsRemainder | bench/partition_skew.py:63-68 | only the sign bit is dropped before the remainder is taken |
| PartitionSkew.CountPartitions | bench/partition_skew.py:108-114 | for each strategy the counter is that of its keys' partitions, and the distinct keys are collected up to the cap |
| PartitionSkew.CountsMean | bench/partition_skew.py:108-112 | each strategy counts the partition of its own key, once per event |
| PartitionSkew.KeysMean | bench/partition_skew.py:113-114 | the distinct keys collected are the strategy's, all of them unless there are more than 200,000 |
| PartitionSkew.CountsSumToTotal | bench/partition_skew.py:71-73 | the per-partition counts add up to the number of events |
| PartitionSkew.HottestIsHot | bench/partition_skew.py:71-87 | the hottest partition holds at least an even share and at least the events of the most frequent key, so the imbalance is at least 1 |
| PartitionSkew.ExtremesMean | bench/partition_skew.py:72-76 | the hottest and the coldest partition are reached and passed by none |
| PartitionSkew.ImbalanceMeans | bench/partition_skew.py:71-87 | the imbalance is the hottest partition over an even share, 0 with nothing counted |
| PartitionSkew.FewKeysLeaveIdle | bench/partition_skew.py:90 | a partition is idle exactly if no key hashes to it, so d distinct keys leave at least n - d idle |
| Percentile.PercentilesAreOrdered | bench/latency_report.py:40-50 | a percentile lies between the extremes and is monotone in its level |
| Percentile.PercentileInterpolates | bench/latency_report.py:40-50 | interpolation is linear between the samples on either side of rank (n-1)p/100 |
| Percentile.PercentileCountsSamples | bench/latency_report.py:40-50 | a percentile under a threshold puts at least floor((n-1)p/100)+1 samples under it, and one not under it at most the ceiling of the rank |
| Percentile.ReportForgetsOrder | bench/latency_report.py:80-119 | the report does not depend on the order of the samples |
| Percentile.ReportMeans | bench/latency_report.py:80-115 | the mean and the shares under 1000 and 500 ms are of the samples as read; the percentiles are those of the named levels of the sorted ones |
| Percentile.FiguresAreOrdered | bench/latency_report.py:96-102 | min, p50, p90, p95, p99, p99.9 and max are in order |
| Percentile.VerdictImpliesLower | bench/latency_report.py:109-112 | the level named is the highest under a second, and every lower level is under it too |
| Percentile.VerdictCountsSamples | bench/latency_report.py:109-113 | each verdict bounds the share of samples under a second, from below by the level named and from above by the level it misses |
| Reconciliation.ResidualIs | bench/run_scenario.py:516-540 | the residual is the events in neither set, less those in both, less foreign rows and records, less repeats, less duplicates emitted that Kafka did not keep |
| Reconciliation.LossIsNeverOverstated | bench/run_scenario.py:539-542 | reported loss never exceeds real loss, and equals it if and only if nothing is lost or nothing hides a loss |
| Reconciliation.OverlapIsExactWhenBalanced | bench/run_scenario.py:524-542 | when the overlap figure is the overlap, in both directions |
| Reconciliation.NothingLost | bench/run_scenario.py:524-542 | with nothing lost, nothing foreign and every duplicate kept the overlap figure is exactly the events both written and quarantined |
| Reconciliation.ForeignRecordsHideLoss | bench/run_scenario.py:500-504 | a record of an earlier run can hide a lost event |
| Reconciliation.BacklogHidesLoss | bench/run_scenario.py:764-767 | so can a row written for an event from before the run |
| Reconciliation.UnkeptDuplicateHidesLoss | producer/produce.py:235-237 | a duplicate that Kafka did not keep can hide a lost event |
| Reconciliation.LongestMonotonicRun | bench/run_scenario.py:683-697 | the result is the length of the longest strictly rising stretch |
| Sweep.TestRates | bench/throughput_sweep.py:162-175 | the steps tested end at the first place where enough failures in a row have piled up, or at the last rate; the sweep raises exactly at a step without a report reached before that |
| Sweep.EndMeans | bench/throughput_sweep.py:169-173 | a sweep ends at a place if and only if every step before it reports, no earlier place has stop-after failures in a row behind it, and either this one has or no step is left |
| Sweep.PastMeans | bench/throughput_sweep.py:162-175 | a sweep gets past some steps, to raise at the next or to go on, if and only if all of them report and none ends it |
| Sweep.ReadOff | bench/throughput_sweep.py:178-184 | the sustained step is the end of the sustained prefix by rate |
| Sweep.ByRateSorts | bench/throughput_sweep.py:179 | sorting by rate keeps the steps, and those of one rate in their order |
| Sweep.EarlyStopIsHarmless | bench/throughput_sweep.py:162-184 | for ascending rates and at least one failure to stop, the truncated sweep gives the sustained and first failing rates of the full one |
| Sweep.StopAtOnce | bench/throughput_sweep.py:169-173 | with no failures needed to stop, exactly when the one step tested gives the full answer |
| Sweep.SustainedIsHighest | bench/throughput_sweep.py:178-184 | every tested rate up to the sustained one sustained, and above it the property fails |
| Rollup.StageTable.Insert | airflow/dags/trips_batch_rollup.py:147-161 | a payload is upserted whole, page by page, or not at all when a page names a trip twice; the row count is the last page's |
| Rollup.AcceptedMeans | airflow/dags/trips_batch_rollup.py:147-159 | a payload is accepted if and only if no 1000 rows sent together name a trip twice |
| Rollup.StageTable.ReprocessWindow | airflow/dags/trips_backfill.py:90-147 | the stage and the totals after the walk, and after a walk that a refused hour ends |
| Rollup.PlanMeans | airflow/dags/trips_backfill.py:61-73 | a window is planned if it is not empty and less than 337 hours long, and for its whole hours |
| Rollup.StageTable.ExtractAndLoadHour | airflow/dags/trips_batch_rollup.py:109-165 | the stage after one hour's load, and the counts reported, which agree exactly when the hour fits one page |
| RollupTheorems.WalkVisitsTheWindow | airflow/dags/trips_backfill.py:100-141 | from a whole hour the walk visits exactly the whole hours in [start, end) |
| RollupTheorems.StepsArePlanned | airflow/dags/trips_backfill.py:61-73 | the walk takes the planned number of steps if and only if the window is a whole number of hours |
| RollupTheorems.UnalignedReadsNothing | airflow/dags/trips_backfill.py:100-111 | from anything else it reads nothing and changes nothing |
| RollupTheorems.EmptyAlert | airflow/dags/trips_backfill.py:164-168 | when the empty-backfill alert means that nothing was read |
| RollupTheorems.BackfillsCompose | airflow/dags/trips_backfill.py:100-141 | backfilling [a, b) and then [b, c) is backfilling [a, c) |
| RollupTheorems.LoadedAt | airflow/dags/trips_backfill.py:129-133 | what a load leaves of one trip: the columns of its last row beside those the conflict clause keeps, which for a new trip are those of its first row |
| RollupTheorems.HourIsStored | airflow/dags/trips_batch_rollup.py:141-159 | an hour's load stores every trip of the hour, a new one with its city and all its columns, a known one as far as the conflict clause lets it |
| RollupTheorems.OthersAreKept | airflow/dags/trips_batch_rollup.py:147-159 | an hour's load touches no trip of another hour |
| RollupTheorems.WindowIsStored | airflow/dags/trips_backfill.py:100-141 | a backfill stores every trip of every hour it visits, a new one with its city and all its columns |
| RollupTheorems.TallyReads | airflow/dags/trips_backfill.py:96-147 | the rows and empty hours a backfill reports are those of the cells it visits |
| RollupTheorems.RerunChangesOnlyLoadedAt | airflow/dags/trips_backfill.py:8-13 | re-running a window at any later time changes loaded_at and nothing else |
| RollupTheorems.DriftIs | airflow/dags/trips_batch_rollup.py:187-188 | drift is the trips extracted twice less the stale rows, whatever the stage held |
| RollupTheorems.RollupVerifies | airflow/dags/trips_batch_rollup.py:168-196 | after any mixture of hourly loads and backfills while Cassandra only grew, rolling up an hour is accepted; its verification, after any further such mixture, finds no drift if and only if no load in between read a trip of the hour that the extraction lacked |
| RollupTheorems.DriftLater | airflow/dags/trips_batch_rollup.py:187-188 | everything extracted is still in the table at the verification, and the drift is minus the number of trips read meanwhile over and above |
| RollupTheorems.RollUpAmid | airflow/dags/trips_batch_rollup.py:109-196 | the two tasks with any loads between them on the table itself: the alert comes exactly when rows were extracted and such a load read a trip of the hour that the extraction lacked, and the drift is minus the number of those trips |
| RollupTheorems.FalseAlert | airflow/dags/trips_batch_rollup.py:187-193 | a run in which Cassandra grows and a backfill loads the hour before its verification, which then alerts with all extracted trips in the table |
| RollupTheorems.RollUpHour | airflow/dags/trips_batch_rollup.py:109-196 | loading an hour of any table and verifying it with nothing in between alerts exactly when rows were extracted and the trips extracted twice do not balance the stale rows the table held, the drift returned is their difference, and the row count is right exactly when one page holds the hour |

## Left out

- Kafka, Spark, Cassandra and Postgres themselves: sessions, prepared statements, threads, replication, query plans. They are sequences, maps and scripts of outcomes.
- Offsets per partition in the pipeline's state: it has one log in the order the job consumes it. Partitions matter inside a batch, where each is written on its own; the partition of a message sent back is given, not hashed from its key.
- Event times with an offset other than UTC: a key's day and hour are those of the instant, as on the stream (streaming/cassandra_sink.py:155-159). The drain's direct write takes them from the text as it stands (replay/dlq_tools.py:177-178), so the two paths agree only on UTC text, which is what the producer writes.
- Delivery reports that are wrong: a delivery reported as failed is taken not to have reached the topic.
- Growth of Cassandra while the cells of one hour are being read: an extraction sees all its cells at one moment.
- Messages a drain sends back during a measured run: the reconciliation's messages are the producer's.
- JSON, UUID and calendar libraries: a message carries the fields the stream's schema decodes and whether its values had the columns' types, a payload is its message, and ISO week and civil date are given as functions of the day. For `QueryTheorems.StarEqualsWide` different days must have different dates.
- Floating point: delays, percentiles, fares and distances are reals, event times exact milliseconds. Rounding to display digits is left out except inside query results, and so is the loss of precision when a surge multiplier or distance is stored as float4.
- Text of exceptions: a failure is known by its name, and the late-event reason does not repeat the cutoff.
- Latency sampling, gauges, log files, lag polling, progress files and the stateful rollup query inside Spark.
- Negative watermark delays: Spark refuses them, so lemmas about the mark and about lateness require a lateness of at least zero. The pipeline's invariant also excludes the drop policy, under which late rows are meant to be lost.
- Exceptions outside the retryable and permanent ones in the sink: the task dies, and the batch with it. The records a dying publication gets out are covered by the machine's crash step, not by `Stream.TripStream.ProcessBatch`.
- The drain's file of parked records, records it cannot read, and the fallback to a default message key.
- Constraint violations in Postgres other than a repeated trip in one statement, and null columns in the rollup's rows.
- Envelope fields that nothing decides on: timestamps, host, source partition and offset.
- Random event generation, apart from what the loader and the producer make of an event; command lines, scheduling, alert delivery, chaos injection.
- The thresholds that make one sweep step sustained: a step is its rate and its verdict.
- `producer/produce.py` counts per partition and `common/retry.py` averages: they only restate counters.
- Replay.Drain: the sends of one drain are delivered in order; interleaving with the live producer is a matter of the log's order in the machine.
- Sweep.TestRates: how a step would turn out is given beforehand, so steps are independent of each other.
