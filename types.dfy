/** Values exchanged between the benchmark harness and the log-service client. */
module Types {

  datatype Option<+T> = None | Some(value: T)

  /** An exception: one raised by a client call (its message is opaque here), or Ruby's
      ZeroDivisionError from dividing by a zero thread count. */
  datatype Error = ServiceError(message: string) | ZeroDivisionError

  /** A step that returns normally, or raises. */
  datatype Outcome = Pass | Fail(error: Error)

  /** A call that returns a value, or raises. */
  datatype Result<+T> = Ok(value: T) | Err(error: Error)

  /** The error an optional exception stands for. */
  function RaisedOutcome(raised: Option<Error>): (o: Outcome)
    ensures o.Fail? <==> raised.Some?
    ensures o.Fail? ==> raised == Some(o.error)
  {
    match raised
    case None => Pass
    case Some(e) => Fail(e)
  }

  /** A shard iterator: an opaque position token of the log service. */
  type Cursor = string

  /** One entry of `describe_stream`'s shard list. */
  datatype Shard = Shard(shardId: string)

  /** A `get_records` result: how many records it holds and the iterator to read on from. */
  datatype Batch = Batch(size: nat, next: Cursor)

  /** A request the harness sends to the log-service client. */
  datatype Call =
    | CreateStream(stream: string, shardCount: int)
    | DescribeStream(stream: string)
    | DeleteStream(stream: string)
    | PutRecord(stream: string, partitionKey: string, data: string)
    | GetShardIterator(stream: string, shardId: Option<string>, iteratorType: string)
    | GetRecords(shardIterator: Cursor)
}
