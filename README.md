# kinesis-ruby-test, modelled in Dafny

`app.rb` is a throughput benchmark over a Kinesis stream. `KinesisTest` first creates a one-shard
stream and polls it until its shard exists (`create_stream`). It then writes the configured number
of records from several threads (`publish`). Next it reads the shard back from TRIM_HORIZON,
batch by batch, until a read comes back empty (`consume`). `run` chains the three and deletes the
stream in an `ensure` clause.

This project models that sequential logic. The AWS client is not modelled: each phase takes the
client's replies as parameters, and each phase returns the list of requests it sent (a `Call`
value per request). The modules are:

- `Types`: options, the errors raised (`ServiceError`, `ZeroDivisionError`), the client request
  and reply values.
- `Decimal`: how Ruby interpolation writes an integer in decimal, and the proof that this
  rendering is injective.
- `Rounding`: Ruby's floor division, and `initialize`'s rounding of the requested count.
- `Publishing`: the writes of `publish` as a specification (`WorkerFrom`, `WorkersFrom`,
  `PublishReport`), with lemmas on counts, failures, order and distinct payloads.
- `Provisioning`: where the `describe_stream` poll of `create_stream` ends, which shard id it
  stores, and how many dots it prints.
- `Draining`: where the `get_records` loop of `consume` ends, the records it counts, and the
  iterator each call uses.
- `Lifecycle`: the phase order of `run` and its guaranteed deletion.
- `Harness`: the class `KinesisTest`. It has the constant fields set by `initialize` and the
  mutable `shardId`. Its methods `CreateStream`, `PublishWorker`, `Publish`, `Consume`,
  `RunPhases` and `Run` hold the source's loops, and each is proved against the specification
  functions above.

The rounding the code performs differs from the one its comment and its use of `.ceil` suggest.
The comment at app.rb:19 says the requested count is rounded to a multiple of the thread count,
and the code calls `.ceil`. But `iterations / publisher_thread_count` is already an Integer,
because Ruby's `Integer#/` floors the quotient, and `Integer#ceil` returns the integer
unchanged. Only the floored quotient is multiplied back by the thread count. For a positive
thread count the stored count is therefore rounded down: the default 200 records on 3 threads
store 198, and ten records on three threads give 9 writes, not the 12 a ceiling would give.
For a negative thread count the same floored quotient makes the stored count round up: 10 on
-3 stores 12. The model follows the code (`Rounding.RoundIterations`,
`Rounding.RoundingExamples`).

A modelling choice for publishing: the threads share nothing, so the model lays out their writes
worker by worker. A write fails when `faults` (a map from worker and write index to the raised
error) says so. A failed write ends its worker. `publish` then raises the error of the
lowest-index failing worker, because `Thread#join` runs in thread order and re-raises the
thread's exception. That error is the one of that worker's first failing write
(`Publishing.PublishRaisesFirstFault`).

## Model

| member | source | states |
|---|---|---|
| `Decimal.NatToString` | app.rb:74 | the decimal rendering of a natural is a non-empty string of digits, one digit long exactly when the number is below 10 |
| `Decimal.NatToStringValue` | app.rb:74 | the rendering denotes `n` (its digits, read most significant first, give back `n`), and it starts with a zero only for `n` = 0 |
| `Decimal.NatToStringInjective` | app.rb:74 | different numbers render differently |
| `Rounding.FloorDiv` | app.rb:20 | Ruby's `Integer#/`: the quotient `q` satisfies `b*q <= a < b*q + b` for a positive divisor, and the mirrored bounds for a negative one |
| `Rounding.FloorDivOfMultiple` | app.rb:71 | dividing `q*b` by `b` gives back `q` |
| `Rounding.RoundIterations` | app.rb:19-20 | a zero thread count raises ZeroDivisionError; otherwise the stored count is a multiple of the thread count, at most the request and less than one thread count below it (for a negative count: at least the request and less than one count above it) |
| `Rounding.BatchCountOfRounded` | app.rb:71 | every thread's `batch_count`, computed from the rounded count, equals the original quotient of the request by the thread count |
| `Rounding.RoundingExamples` | app.rb:5-6 | 200 on 3 threads stores 198, and 10 on 3 stores 9. The quotient is floored for either sign: -10 on 3 rounds down to -12, and 10 on -3 rounds up to 12 |
| `Publishing.Payload` | app.rb:74 | definition: the `data` of write `n` of thread `i` is "this is message " followed by `i` in decimal, "/" and `n` in decimal |
| `Publishing.Then` | app.rb:77 | definition: two reports in join order; their writes concatenated, and the earlier one's exception if it raised, else the later one's |
| `Publishing.WorkerFrom` | app.rb:71-75 | definition: a thread's writes from `n` on, one per `n` below `batch_count`, ending with the first write that raises and raising its error |
| `Publishing.WorkersFrom` | app.rb:69-77 | definition: the threads from index `w` below `publisher_thread_count`, each joined after the one before it |
| `Publishing.PublishReport` | app.rb:69-77 | definition: all threads, from index 0 on |
| `Publishing.Writes` | app.rb:74 | definition: one `put_record` per write, in order, each to the given stream with the given partition key and that write's `Payload` as its data |
| `Publishing.PayloadInjective` | app.rb:74 | two writes with the same payload "this is message i/n" have the same worker index and the same write index |
| `Publishing.WorkerStopsAtFirstFault` | app.rb:73-75 | a worker writes 0, 1, 2, ... in order. It stops right after the first failing write and raises that write's error. With no failing write it issues all `batch_count` writes, or none when the count is not positive |
| `Publishing.WorkersWriteEverything` | app.rb:69-77 | with no failures, the workers from index `w` up issue `(threads - w) * batch_count` writes, counting zero for a non-positive count, and nothing is raised |
| `Publishing.PublishRaisesIff` | app.rb:69-77 | publishing raises if and only if some write of some worker fails |
| `Publishing.WorkerRaisesAt` | app.rb:73-75 | a thread that raised raised at its first failing write, with that write's error, and every earlier write succeeded |
| `Publishing.PublishRaisesFirstFault` | app.rb:69-77 | the error publishing raises is that of the least failing write, ordered by thread index and then by write index |
| `Publishing.WorkersOrdered` | app.rb:69-75 | the writes are strictly ordered by worker index and then by write index, and lie within the thread and batch bounds |
| `Publishing.PublishCallsDistinct` | app.rb:73-74 | every `put_record` goes to the stream name with the fixed partition key, and no two carry the same payload |
| `Publishing.PublishIssuesIterations` | app.rb:69-79 | for a positive thread count, a non-negative request and no failures, `publish` issues exactly the stored `iterations` writes, which is `threads * batch_count` |
| `Provisioning.Settles` | app.rb:46-48 | definition: a `describe_stream` reply ends the loop when it raised or when `shards[0]` exists, i.e. the shard list is non-empty |
| `Provisioning.FirstSettled` | app.rb:45-54 | the poll ends at the first reply that raised or had a shard, and every earlier reply had none |
| `Provisioning.Provisioned` | app.rb:45-54 | definition: the creation's exception if it raised; else the exception of the poll that ends the loop, or the shard id of that poll's first shard |
| `Provisioning.Dots` | app.rb:45-54 | definition: no dot if the creation raised, else one per poll before the one that ends the loop |
| `Provisioning.ProvisionCalls` | app.rb:39-54 | one `create_stream` with one shard; then, if it returned, only `describe_stream` requests, one per dot plus the final poll |
| `Provisioning.ProvisionedIff` | app.rb:45-54 | a shard id is stored exactly when the stream was created, some poll found shards and all earlier polls found none; the id is that poll's first shard's, and the number of dots equals the number of earlier polls |
| `Draining.Stops` | app.rb:94 | definition: a `get_records` reply ends the `while` when the call raised, returned `nil`, or returned a batch whose `records.any?` is false, i.e. an empty batch |
| `Draining.FirstStop` | app.rb:94 | the drain ends at the first reply that raised, was `nil` or held no records; every earlier reply was a non-empty batch |
| `Draining.Consumed` | app.rb:94-97 | definition: the sum of the record counts of the first `k` batches |
| `Draining.CursorFor` | app.rb:89-95 | definition: the iterator of the `j`-th `get_records` call, the TRIM_HORIZON one for the first and the previous batch's `next_shard_iterator` after that |
| `Draining.ConsumeResult` | app.rb:89-97 | definition: the exception of `get_shard_iterator` or of the `get_records` call that ends the drain, else the records counted before that call |
| `Draining.ConsumeCalls` | app.rb:89-94 | one `get_shard_iterator` of type TRIM_HORIZON; then, if it returned, one `get_records` per batch up to the one that ends the drain, the `j`-th with `CursorFor` of `j` |
| `Draining.ConsumedAtLeastBatches` | app.rb:94-97 | the count never decreases from batch to batch and is at least the number of batches read |
| `Draining.DrainExample` | app.rb:94-97 | batches of 5, 5 and 0 records: the third call ends the drain, and 10 records are counted |
| `Lifecycle.Entered` | app.rb:27-30 | the phases that run are all those up to and including the first that raises, and every phase before that one returned normally |
| `Lifecycle.Trace` | app.rb:27-33 | definition: the main phases entered, then the deletion |
| `Lifecycle.Raised` | app.rb:27-33 | definition: how the last phase entered ended |
| `Lifecycle.RunShape` | app.rb:27-33 | a phase runs exactly when every earlier phase returned normally; the deletion runs once and last on every path; `run` raises exactly when some phase raised, and it raises the first such exception |
| `Lifecycle.TraceOfMainPhases` | app.rb:27-33 | the three possible traces: create fails, publish fails, or all three phases run; each is followed by the deletion |
| `Harness.KinesisTest.Valid` | app.rb:18-22 | definition: what `initialize` fixes: a non-zero thread count, the stream name `kinesis-test-rb`, the partition key `only_one_shard`, and a stored count that is the floored quotient times the thread count |
| `Harness.KinesisTest.BatchCount` | app.rb:71 | each thread's `batch_count`, the stored count divided by the thread count; multiplied back it gives the stored count exactly |
| `Harness.KinesisTest.constructor` | app.rb:17-25 | the stored count is `RoundIterations` of the request, the stream name and partition key are the fixed ones, and the shard id is nil |
| `Harness.KinesisTest.CreateStream` | app.rb:37-57 | sends exactly the requests of `ProvisionCalls`. Stores the shard id of `Provisioned`, or keeps the old id and raises its exception. Prints `Dots` dots |
| `Harness.KinesisTest.PublishWorker` | app.rb:70-76 | one thread's `put_record` calls and its exception are those of its worker specification |
| `Harness.KinesisTest.Publish` | app.rb:67-80 | the `put_record` calls of all threads and the raised exception are those of `PublishReport` |
| `Harness.KinesisTest.Consume` | app.rb:88-100 | sends exactly the requests of `ConsumeCalls` for the stored shard id, and ends with `ConsumeResult`: the sum of the batch sizes, or the exception raised |
| `Harness.KinesisTest.PhaseOutcomes` | app.rb:28-30 | how each of the three phases would end: `Provisioned`, `PublishReport`'s exception and `ConsumeResult`, one outcome per main phase |
| `Harness.KinesisTest.PhaseCalls` | app.rb:28-30 | the requests of `ProvisionCalls`, then the `put_record` requests of `PublishReport` if the creation returned, then those of `ConsumeCalls` for the stored shard id if publishing returned too. They start with `create_stream`, hold no `delete_stream`, and include the `get_shard_iterator` whenever `consume` runs |
| `Harness.KinesisTest.RunPhases` | app.rb:28-30 | the phases run in order up to the first that raises; the outcome is that exception or the consume result; the requests sent are exactly `PhaseCalls` |
| `Harness.KinesisTest.Run` | app.rb:27-33 | the phase trace and outcome are those of `Lifecycle.Trace` and `Lifecycle.Raised`. The requests are exactly `PhaseCalls` followed by one `delete_stream`, which is the only one. `consume` asks for an iterator for the shard id `create_stream` stored |

## Left out

- The AWS SDK client and the network (app.rb:23): the client's replies are parameters, and
  each request it receives is a `Call` value in the returned list.
- Threads and `join` (app.rb:69-77): the workers are modelled one after another. Nothing is
  claimed about the interleaving of their writes. Also left out: the threads that keep running
  after a `join` re-raises, and Ruby's printed thread-exception report.
- `Benchmark.measure`, the elapsed seconds and their `"%0.2f"` formatting (app.rb:68-79,
  app.rb:93-99): wall-clock time and floating point.
- `puts`, `print`, `STDOUT.flush` and `sleep 1` (app.rb:38-56, app.rb:72, app.rb:79,
  app.rb:92, app.rb:99): console output and waiting. Only the number of progress dots is kept.
- The unbounded polls: `CreateStream`, `Consume`, `RunPhases` and `Run` require that some
  reply ends the poll or the drain. The requirement holds on every path, including paths that
  never poll: a failed creation sends no `describe_stream`, and `consume` does not run after a
  failed creation or publish, yet the describe and record replies must still contain an ending
  reply. Such replies are then never read.
- `get_records` replies are taken in call order. The model does not tie a reply to the
  iterator passed, because the service's records are not modelled.
- `delete_stream` (app.rb:59-61) is modelled only as the final `DeleteStream` request of `Run`.
  It never raises in the model; what a raise inside `ensure` would do to the original exception
  is not modelled.
- The script invocation (app.rb:103) and the client region are configuration. The default
  counts of app.rb:5-6 appear only in `Rounding.RoundingExamples`.
- `Harness.KinesisTest.constructor`: requires a non-zero thread count. The ZeroDivisionError
  that `initialize` raises for zero is modelled by `Rounding.RoundIterations` returning
  `Err(ZeroDivisionError)`, not by a failing constructor.
- `Harness.KinesisTest.Consume`: returns the consumed count, which `consume` only prints.
