/** The `KinesisTest` benchmark harness of app.rb. The log-service client is not modelled: each
    phase takes the client's replies as parameters and returns the requests it sent, in order. */
module Harness {
  import opened Types
  import opened Rounding
  import opened Publishing
  import opened Provisioning
  import opened Draining
  import opened Lifecycle

  const StreamName := "kinesis-test-rb"
  const PartitionKey := "only_one_shard"

  class KinesisTest {
    const iterations: int
    const publisherThreadCount: int
    const streamName: string
    const partitionKey: string
    /** The id of the stream's shard, `nil` until `create_stream` stores it. */
    var shardId: Option<string>

    /** What `initialize` establishes. */
    predicate Valid()
    {
      && publisherThreadCount != 0
      && streamName == StreamName
      && partitionKey == PartitionKey
      && FloorDiv(iterations, publisherThreadCount) * publisherThreadCount == iterations
    }

    /** The `batch_count` each publishing thread computes. */
    function BatchCount(): (batchCount: int)
      requires Valid()
      ensures batchCount * publisherThreadCount == iterations
    {
      FloorDiv(iterations, publisherThreadCount)
    }

    /** `initialize` (app.rb:17-25): rounds the requested count (see `RoundIterations`). */
    constructor (iterations: int, publisherThreadCount: int)
      requires publisherThreadCount != 0
      ensures Valid()
      ensures RoundIterations(iterations, publisherThreadCount) == Ok(this.iterations)
      ensures this.publisherThreadCount == publisherThreadCount
      ensures shardId == None
    {
      var rounded := RoundIterations(iterations, publisherThreadCount);
      this.publisherThreadCount := publisherThreadCount;
      this.iterations := rounded.value;
      streamName := StreamName;
      partitionKey := PartitionKey;
      shardId := None;
    }

    /** `create_stream` (app.rb:37-57): the stream is created with one shard, then described
        until a shard appears; a '.' is printed per poll that found none. */
    method CreateStream(created: Outcome, replies: seq<DescribeReply>)
      returns (outcome: Outcome, calls: seq<Call>, dots: nat)
      requires SettlesFrom(replies, 0)
      modifies this
      ensures var p := Provisioned(created, replies);
        && outcome == (if p.Ok? then Pass else Fail(p.error))
        && shardId == (if p.Ok? then Some(p.value) else old(shardId))
      ensures dots == Dots(created, replies)
      ensures calls == ProvisionCalls(streamName, created, replies)
    {
      calls := [Call.CreateStream(streamName, 1)];
      dots := 0;
      if created.Fail? {
        return created, calls, dots;
      }
      var polls: nat := 0;
      var reply := replies[0];
      calls := calls + [DescribeStream(streamName)];
      while !Settles(reply)
        invariant polls <= FirstSettled(replies, 0)
        invariant reply == replies[polls]
        invariant dots == polls
        invariant |calls| == polls + 2 && calls[0] == Call.CreateStream(streamName, 1)
        invariant forall j :: 1 <= j < |calls| ==> calls[j] == DescribeStream(streamName)
        decreases FirstSettled(replies, 0) - polls
      {
        dots := dots + 1;
        polls := polls + 1;
        reply := replies[polls];
        calls := calls + [DescribeStream(streamName)];
      }
      if reply.Err? {
        outcome := Fail(reply.error);
      } else {
        shardId := Some(reply.value[0].shardId);
        outcome := Pass;
      }
    }

    /** The block each publishing thread runs (app.rb:70-76): `batch_count` writes, the `n`-th
        with the payload "this is message <thread_idx>/<n>", ending at a write that raises. */
    method PublishWorker(threadIdx: nat, faults: Faults) returns (raised: Option<Error>, calls: seq<Call>)
      requires Valid()
      ensures var r := WorkerFrom(threadIdx, 0, BatchCount(), faults);
        calls == Writes(streamName, partitionKey, r.writes) && raised == r.raised
    {
      var batchCount := FloorDiv(iterations, publisherThreadCount);
      ghost var done: seq<Write> := [];
      raised := None;
      calls := [];
      var n: nat := 0;
      while n < batchCount && raised.None?
        invariant raised.None? ==>
          Then(Report(done, None), WorkerFrom(threadIdx, n, batchCount, faults)) == WorkerFrom(threadIdx, 0, batchCount, faults)
        invariant raised.Some? ==> Report(done, raised) == WorkerFrom(threadIdx, 0, batchCount, faults)
        invariant calls == Writes(streamName, partitionKey, done)
        decreases batchCount - n
      {
        WritesAppend(streamName, partitionKey, done, (threadIdx, n));
        calls := calls + [PutRecord(streamName, partitionKey, Payload(threadIdx, n))];
        WorkerStep(threadIdx, n, batchCount, faults, done);
        done := done + [(threadIdx, n)];
        if (threadIdx, n) in faults {
          raised := Some(faults[(threadIdx, n)]);
        }
        n := n + 1;
      }
    }

    /** `publish` (app.rb:67-80): `publisher_thread_count` workers run `PublishWorker`; the
        publish raises the exception of the first worker, in join order, that raised. `faults`
        says which writes raise. */
    method Publish(faults: Faults) returns (outcome: Outcome, calls: seq<Call>)
      requires Valid()
      ensures var r := PublishReport(publisherThreadCount, BatchCount(), faults);
        calls == Writes(streamName, partitionKey, r.writes) && outcome == RaisedOutcome(r.raised)
    {
      ghost var plan: seq<Write> := [];
      var raised: Option<Error> := None;
      calls := [];
      var threadIdx: nat := 0;
      while threadIdx < publisherThreadCount
        invariant Then(Report(plan, raised), WorkersFrom(threadIdx, publisherThreadCount, BatchCount(), faults))
               == PublishReport(publisherThreadCount, BatchCount(), faults)
        invariant calls == Writes(streamName, partitionKey, plan)
        decreases publisherThreadCount - threadIdx
      {
        var failed, written := PublishWorker(threadIdx, faults);
        ghost var worker := WorkerFrom(threadIdx, 0, BatchCount(), faults);
        ghost var rest := WorkersFrom(threadIdx + 1, publisherThreadCount, BatchCount(), faults);
        WritesConcat(streamName, partitionKey, plan, worker.writes);
        assert plan + worker.writes + rest.writes == plan + (worker.writes + rest.writes);
        calls := calls + written;
        plan := plan + worker.writes;
        if raised.None? {
          raised := failed;
        }
        threadIdx := threadIdx + 1;
      }
      outcome := RaisedOutcome(raised);
    }

    /** `consume` (app.rb:88-100): reads the shard from its TRIM_HORIZON iterator until a
        `get_records` call returns `nil` or no records, counting the records read. */
    method Consume(shardIterator: Result<Cursor>, replies: seq<RecordsReply>)
      returns (result: Result<nat>, calls: seq<Call>)
      requires StopsFrom(replies, 0)
      ensures result == ConsumeResult(shardIterator, replies)
      ensures calls == ConsumeCalls(streamName, shardId, shardIterator, replies)
    {
      calls := [GetShardIterator(streamName, shardId, TrimHorizon)];
      if shardIterator.Err? {
        return Err(shardIterator.error), calls;
      }
      var cursor := shardIterator.value;
      var consumedCount: nat := 0;
      var batches: nat := 0;
      var reply := replies[0];
      calls := calls + [GetRecords(cursor)];
      while !Stops(reply)
        invariant batches <= FirstStop(replies, 0)
        invariant reply == replies[batches]
        invariant cursor == CursorFor(shardIterator.value, replies, batches)
        invariant consumedCount == Consumed(replies, batches)
        invariant |calls| == batches + 2 && calls[0] == GetShardIterator(streamName, shardId, TrimHorizon)
        invariant forall j :: 0 <= j <= batches ==> calls[j + 1] == GetRecords(CursorFor(shardIterator.value, replies, j))
        invariant forall j :: 1 <= j < |calls| ==> calls[j].GetRecords?
        decreases FirstStop(replies, 0) - batches
      {
        cursor := reply.value.value.next;
        consumedCount := consumedCount + reply.value.value.size;
        batches := batches + 1;
        reply := replies[batches];
        calls := calls + [GetRecords(cursor)];
      }
      ConsumeCallsFrom(streamName, shardId, shardIterator.value, replies, calls);
      if reply.Err? {
        result := Err(reply.error);
      } else {
        result := Ok(consumedCount);
      }
    }

    /** How each of `run`'s phases ends on the given client replies. */
    function PhaseOutcomes(created: Outcome, describeReplies: seq<DescribeReply>, faults: Faults,
                           shardIterator: Result<Cursor>, recordReplies: seq<RecordsReply>): (outcomes: seq<Outcome>)
      requires Valid() && SettlesFrom(describeReplies, 0) && StopsFrom(recordReplies, 0)
      ensures |outcomes| == |MainPhases|
    {
      var provisioned := Provisioned(created, describeReplies);
      var consumed := ConsumeResult(shardIterator, recordReplies);
      [ if provisioned.Ok? then Pass else Fail(provisioned.error),
        RaisedOutcome(PublishReport(publisherThreadCount, BatchCount(), faults).raised),
        if consumed.Ok? then Pass else Fail(consumed.error) ]
    }

    /** The requests `run`'s body sends: those of `create_stream`, then those of `publish` if
        `create_stream` returned, then those of `consume` if `publish` returned too. */
    function PhaseCalls(created: Outcome, describeReplies: seq<DescribeReply>, faults: Faults,
                        shardIterator: Result<Cursor>, recordReplies: seq<RecordsReply>): (calls: seq<Call>)
      requires Valid() && SettlesFrom(describeReplies, 0) && StopsFrom(recordReplies, 0)
      reads this
      ensures |calls| >= 1 && calls[0] == Call.CreateStream(streamName, 1)
      ensures Call.DeleteStream(streamName) !in calls
      ensures var outcomes := PhaseOutcomes(created, describeReplies, faults, shardIterator, recordReplies);
        outcomes[0].Pass? && outcomes[1].Pass? ==> GetShardIterator(streamName, shardId, TrimHorizon) in calls
    {
      var outcomes := PhaseOutcomes(created, describeReplies, faults, shardIterator, recordReplies);
      var provision := ProvisionCalls(streamName, created, describeReplies);
      var publish := Writes(streamName, partitionKey, PublishReport(publisherThreadCount, BatchCount(), faults).writes);
      var consume := ConsumeCalls(streamName, shardId, shardIterator, recordReplies);
      assert forall j :: 0 <= j < |provision| ==> provision[j] != Call.DeleteStream(streamName);
      assert forall j :: 0 <= j < |publish| ==> publish[j] != Call.DeleteStream(streamName);
      assert forall j :: 0 <= j < |consume| ==> consume[j] != Call.DeleteStream(streamName);
      provision + if outcomes[0].Fail? then [] else publish + if outcomes[1].Fail? then [] else consume
    }

    /** The body of `run` before its `ensure` (app.rb:28-30): the phases in order, each only if
        the one before it returned normally; the first exception ends the body. */
    method RunPhases(created: Outcome, describeReplies: seq<DescribeReply>, faults: Faults,
                     shardIterator: Result<Cursor>, recordReplies: seq<RecordsReply>)
      returns (outcome: Outcome, phases: seq<Phase>, calls: seq<Call>)
      requires Valid() && SettlesFrom(describeReplies, 0) && StopsFrom(recordReplies, 0)
      modifies this
      ensures var outcomes := PhaseOutcomes(created, describeReplies, faults, shardIterator, recordReplies);
        phases == MainPhases[..Entered(outcomes)] && outcome == Raised(outcomes)
      ensures calls == PhaseCalls(created, describeReplies, faults, shardIterator, recordReplies)
      ensures var p := Provisioned(created, describeReplies);
        shardId == (if p.Ok? then Some(p.value) else old(shardId))
    {
      ghost var outcomes := PhaseOutcomes(created, describeReplies, faults, shardIterator, recordReplies);
      TraceOfMainPhases(outcomes);
      var dots;
      phases := [CreatePhase];
      outcome, calls, dots := CreateStream(created, describeReplies);
      assert outcome == outcomes[0];
      if outcome.Pass? {
        var published;
        phases := phases + [PublishPhase];
        outcome, published := Publish(faults);
        assert outcome == outcomes[1];
        if outcome.Pass? {
          var consumed, read;
          phases := phases + [ConsumePhase];
          consumed, read := Consume(shardIterator, recordReplies);
          assert calls + (published + read) == calls + published + read;
          calls := calls + published + read;
          outcome := if consumed.Ok? then Pass else Fail(consumed.error);
          assert outcome == outcomes[2];
        } else {
          assert calls + (published + []) == calls + published;
          calls := calls + published;
        }
      } else {
        assert calls + [] == calls;
      }
    }

    /** `run` (app.rb:27-33): the phases, then `ensure` deletes the stream whichever phase
        raised, and the exception, if any, propagates. */
    method Run(created: Outcome, describeReplies: seq<DescribeReply>, faults: Faults,
               shardIterator: Result<Cursor>, recordReplies: seq<RecordsReply>)
      returns (outcome: Outcome, phases: seq<Phase>, calls: seq<Call>)
      requires Valid() && SettlesFrom(describeReplies, 0) && StopsFrom(recordReplies, 0)
      modifies this
      ensures var outcomes := PhaseOutcomes(created, describeReplies, faults, shardIterator, recordReplies);
        phases == Trace(MainPhases, outcomes) && outcome == Raised(outcomes)
      ensures calls == PhaseCalls(created, describeReplies, faults, shardIterator, recordReplies)
                       + [Call.DeleteStream(streamName)]
      ensures |calls| >= 2 && calls[0] == Call.CreateStream(streamName, 1)
      ensures calls[|calls| - 1] == Call.DeleteStream(streamName) && multiset(calls)[Call.DeleteStream(streamName)] == 1
      ensures var p := Provisioned(created, describeReplies);
        shardId == (if p.Ok? then Some(p.value) else old(shardId))
      ensures var outcomes := PhaseOutcomes(created, describeReplies, faults, shardIterator, recordReplies);
        outcomes[0].Pass? && outcomes[1].Pass? ==> GetShardIterator(streamName, shardId, TrimHorizon) in calls
    {
      outcome, phases, calls := RunPhases(created, describeReplies, faults, shardIterator, recordReplies);
      // ensure
      phases := phases + [DeletePhase];
      calls := calls + [Call.DeleteStream(streamName)];
    }
  }
}
