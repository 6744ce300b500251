/** What `KinesisTest#create_stream` (app.rb:37-57) ends with: after `create_stream`, it polls
    `describe_stream` until the shard list is non-empty and keeps `shards[0].shard_id`,
    printing a '.' for each poll that found no shard. The client's answers to the polls are a
    finite sequence, and one of them must end the poll. */
module Provisioning {
  import opened Types

  /** A `describe_stream` reply: the stream's shard list, or the exception the call raised. */
  type DescribeReply = Result<seq<Shard>>

  /** True when this reply ends the poll: `shards[0]` exists, or the call raised. */
  predicate Settles(reply: DescribeReply)
  {
    reply.Err? || |reply.value| > 0
  }

  /** Some reply from position `from` on ends the poll. */
  predicate SettlesFrom(replies: seq<DescribeReply>, from: nat)
  {
    exists j :: from <= j < |replies| && Settles(replies[j])
  }

  /** The position of the reply that ends the poll started at `from`. */
  function FirstSettled(replies: seq<DescribeReply>, from: nat): (k: nat)
    requires SettlesFrom(replies, from)
    ensures from <= k < |replies| && Settles(replies[k])
    ensures forall j :: from <= j < k ==> !Settles(replies[j])
    decreases |replies| - from
  {
    if Settles(replies[from]) then from else FirstSettled(replies, from + 1)
  }

  /** The shard id `create_stream` stores, or the exception it raises. */
  function Provisioned(created: Outcome, replies: seq<DescribeReply>): (shardId: Result<string>)
    requires SettlesFrom(replies, 0)
  {
    if created.Fail? then Err(created.error)
    else
      var reply := replies[FirstSettled(replies, 0)];
      if reply.Err? then Err(reply.error) else Ok(reply.value[0].shardId)
  }

  /** The number of progress dots printed: one per poll before the one that ends it. */
  function Dots(created: Outcome, replies: seq<DescribeReply>): (dots: nat)
    requires SettlesFrom(replies, 0)
  {
    if created.Fail? then 0 else FirstSettled(replies, 0)
  }

  /** The requests `create_stream` sends: the creation of a one-shard stream, then, if that
      returned, one `describe_stream` per poll: one per dot printed, and the poll that ends it. */
  function ProvisionCalls(stream: string, created: Outcome, replies: seq<DescribeReply>): (calls: seq<Call>)
    requires SettlesFrom(replies, 0)
    ensures |calls| == (if created.Fail? then 1 else Dots(created, replies) + 2)
    ensures calls[0] == CreateStream(stream, 1)
    ensures forall j :: 1 <= j < |calls| ==> calls[j] == DescribeStream(stream)
  {
    [CreateStream(stream, 1)]
      + if created.Fail? then [] else seq(FirstSettled(replies, 0) + 1, _ => DescribeStream(stream))
  }

  /** `create_stream` stores a shard id exactly when the stream was created and some poll
      returned a non-empty shard list with every earlier poll returning an empty one; the id is
      that list's first shard's, and one dot was printed per earlier poll. */
  lemma ProvisionedIff(created: Outcome, replies: seq<DescribeReply>)
    requires SettlesFrom(replies, 0)
    ensures Provisioned(created, replies).Ok? <==>
      created.Pass? &&
      exists k :: 0 <= k < |replies| && replies[k].Ok? && |replies[k].value| > 0 &&
        forall j :: 0 <= j < k ==> replies[j] == Ok([])
    ensures Provisioned(created, replies).Ok? ==>
      var k := Dots(created, replies);
      && replies[k].Ok? && Provisioned(created, replies).value == replies[k].value[0].shardId
      && forall j :: 0 <= j < k ==> replies[j] == Ok([])
  {
  }
}
