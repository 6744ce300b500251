/** What `KinesisTest#consume` (app.rb:88-100) reads: starting from a TRIM_HORIZON shard
    iterator, it calls `get_records` again and again, moving to each result's
    `next_shard_iterator` and adding up the record counts, until a call returns `nil` or an
    empty batch. The client's answers are a finite sequence, answered in call order, and one
    of them must end the drain. */
module Draining {
  import opened Types

  /** The iterator type `consume` asks for: the oldest record still retained. */
  const TrimHorizon := "TRIM_HORIZON"

  /** A `get_records` reply: the exception it raised, or its result, which may be `nil`. */
  type RecordsReply = Result<Option<Batch>>

  /** True when this reply ends the `while`: the call raised, returned `nil`, or returned a
      result whose `records.any?` is false. */
  predicate Stops(reply: RecordsReply)
  {
    reply.Err? || reply.value.None? || reply.value.value.size == 0
  }

  /** Some reply from position `from` on ends the drain. */
  predicate StopsFrom(replies: seq<RecordsReply>, from: nat)
  {
    exists j :: from <= j < |replies| && Stops(replies[j])
  }

  /** The position of the reply that ends the drain started at `from`. */
  function FirstStop(replies: seq<RecordsReply>, from: nat): (k: nat)
    requires StopsFrom(replies, from)
    ensures from <= k < |replies| && Stops(replies[k])
    ensures forall j :: from <= j < k ==> !Stops(replies[j])
    decreases |replies| - from
  {
    if Stops(replies[from]) then from else FirstStop(replies, from + 1)
  }

  /** None of the first `k` replies ends the drain: each is a non-empty batch. */
  predicate Continues(replies: seq<RecordsReply>, k: nat)
  {
    k <= |replies| && forall j :: 0 <= j < k ==> !Stops(replies[j])
  }

  /** The records counted over the first `k` replies. */
  function Consumed(replies: seq<RecordsReply>, k: nat): (count: nat)
    requires Continues(replies, k)
  {
    if k == 0 then 0 else Consumed(replies, k - 1) + replies[k - 1].value.value.size
  }

  /** The iterator passed to the `j`-th `get_records` call: the TRIM_HORIZON iterator for the
      first one, the `next_shard_iterator` of the batch just before it for each later one. */
  function CursorFor(start: Cursor, replies: seq<RecordsReply>, j: nat): (cursor: Cursor)
    requires Continues(replies, j)
  {
    if j == 0 then start else replies[j - 1].value.value.next
  }

  /** What `consume` ends with: the number of records it counted, or the exception raised by
      `get_shard_iterator` or by a `get_records` call. */
  function ConsumeResult(shardIterator: Result<Cursor>, replies: seq<RecordsReply>): (result: Result<nat>)
    requires StopsFrom(replies, 0)
  {
    if shardIterator.Err? then Err(shardIterator.error)
    else
      var k := FirstStop(replies, 0);
      if replies[k].Err? then Err(replies[k].error) else Ok(Consumed(replies, k))
  }

  /** The requests `consume` sends: `get_shard_iterator` of type TRIM_HORIZON for the given
      shard id, then, if that returned, one `get_records` per reply up to the one that ends
      the drain, the first with the TRIM_HORIZON iterator and each later one with the
      `next_shard_iterator` of the batch before it. */
  function ConsumeCalls(stream: string, shardId: Option<string>, shardIterator: Result<Cursor>,
                        replies: seq<RecordsReply>): (calls: seq<Call>)
    requires StopsFrom(replies, 0)
    ensures |calls| == (if shardIterator.Err? then 1 else FirstStop(replies, 0) + 2)
    ensures calls[0] == GetShardIterator(stream, shardId, TrimHorizon)
    ensures forall j :: 1 <= j < |calls| ==> calls[j].GetRecords?
    ensures shardIterator.Ok? ==>
      forall j :: 0 <= j <= FirstStop(replies, 0) ==>
        calls[j + 1] == GetRecords(CursorFor(shardIterator.value, replies, j))
  {
    [GetShardIterator(stream, shardId, TrimHorizon)]
      + if shardIterator.Err? then []
        else
          var k := FirstStop(replies, 0);
          seq(k + 1, j requires 0 <= j <= k => GetRecords(CursorFor(shardIterator.value, replies, j)))
  }

  /** A request list agrees with `ConsumeCalls` if it has its length and its requests. */
  lemma ConsumeCallsFrom(stream: string, shardId: Option<string>, shardIterator: Cursor,
                         replies: seq<RecordsReply>, calls: seq<Call>)
    requires StopsFrom(replies, 0)
    requires |calls| == FirstStop(replies, 0) + 2
    requires calls[0] == GetShardIterator(stream, shardId, TrimHorizon)
    requires forall j :: 0 <= j <= FirstStop(replies, 0) ==>
      calls[j + 1] == GetRecords(CursorFor(shardIterator, replies, j))
    ensures calls == ConsumeCalls(stream, shardId, Ok(shardIterator), replies)
  {
    var expected := ConsumeCalls(stream, shardId, Ok(shardIterator), replies);
    forall i | 0 <= i < |calls|
      ensures calls[i] == expected[i]
    {
      if i > 0 {
        assert calls[(i - 1) + 1] == expected[(i - 1) + 1];
      }
    }
  }

  /** Every batch counted holds at least one record, so the count is at least the number of
      batches, and it never decreases from one batch to the next. */
  lemma {:induction false} ConsumedAtLeastBatches(replies: seq<RecordsReply>, k: nat)
    requires Continues(replies, k)
    ensures Consumed(replies, k) >= k
    ensures forall j :: 0 <= j <= k ==> Consumed(replies, j) <= Consumed(replies, k)
  {
    if k > 0 {
      ConsumedAtLeastBatches(replies, k - 1);
    }
  }

  /** Batches of 5, 5 and 0 records: 10 records, the third call ending the drain. */
  lemma DrainExample(a: Cursor, b: Cursor, c: Cursor)
    ensures var replies := [Ok(Some(Batch(5, a))), Ok(Some(Batch(5, b))), Ok(Some(Batch(0, c)))];
      StopsFrom(replies, 0) && FirstStop(replies, 0) == 2 && Consumed(replies, 2) == 10
  {
    var replies := [Ok(Some(Batch(5, a))), Ok(Some(Batch(5, b))), Ok(Some(Batch(0, c)))];
    assert Stops(replies[2]);
    assert Consumed(replies, 1) == 5;
  }
}
