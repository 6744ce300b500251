/** What `KinesisTest#publish` writes (app.rb:67-80): `publisher_thread_count` workers, each
    issuing `batch_count` blocking `put_record` calls with the payload
    "this is message <worker>/<n>". The workers share nothing, so they are laid out one after
    another, worker by worker; a write that raises ends its worker. */
module Publishing {
  import opened Types
  import opened Decimal
  import opened Rounding

  const MessagePrefix := "this is message "

  /** The payload of write `n` of worker `worker` (app.rb:74). */
  function Payload(worker: nat, n: nat): (data: string)
  {
    MessagePrefix + NatToString(worker) + "/" + NatToString(n)
  }

  /** Two writes carry the same payload only if they are the same write. */
  lemma PayloadInjective(worker: nat, n: nat, worker': nat, n': nat)
    requires Payload(worker, n) == Payload(worker', n')
    ensures worker == worker' && n == n'
  {
    var s := Payload(worker, n);
    var a, b := NatToString(worker), NatToString(n);
    var a', b' := NatToString(worker'), NatToString(n');
    var p := |MessagePrefix|;
    assert s == MessagePrefix + a + "/" + b;
    assert s == MessagePrefix + a' + "/" + b';
    // The first '/' after the prefix ends both renderings of the worker index.
    SlashAfter(MessagePrefix, a, b);
    SlashAfter(MessagePrefix, a', b');
    assert |a| == |a'|;
    assert a == s[p..p + |a|] == a';
    assert b == s[p + |a| + 1..] == b';
    NatToStringInjective(worker, worker');
    NatToStringInjective(n, n');
  }

  /** In `pre + digits + "/" + rest`, the first '/' after `pre` follows the digits. */
  lemma SlashAfter(pre: string, digits: string, rest: string)
    requires forall k :: 0 <= k < |digits| ==> '0' <= digits[k] <= '9'
    ensures var s := pre + digits + "/" + rest;
      && s[|pre| + |digits|] == '/'
      && forall k :: |pre| <= k < |pre| + |digits| ==> s[k] != '/'
  {
  }

  /** A write the harness issues, as its worker index and its index within that worker. */
  type Write = (nat, nat)

  /** The `put_record` calls that raise, with what they raise, by write. */
  type Faults = map<Write, Error>

  /** What a run of workers did: the writes issued, in order, and the exception to re-raise. */
  datatype Report = Report(writes: seq<Write>, raised: Option<Error>)

  /** `first` followed by `second`. `Thread#join` is called on the workers in index order, so
      the exception of the earlier one is the one re-raised. */
  function Then(first: Report, second: Report): (joined: Report)
  {
    Report(first.writes + second.writes, if first.raised.Some? then first.raised else second.raised)
  }

  /** Worker `worker` from its write `n` on, out of `batchCount` writes: `batch_count.times`
      issues nothing when the count is not positive, and a write that raises ends the worker. */
  function WorkerFrom(worker: nat, n: nat, batchCount: int, faults: Faults): (r: Report)
    decreases batchCount - n
  {
    if n >= batchCount then Report([], None)
    else if (worker, n) in faults then Report([(worker, n)], Some(faults[(worker, n)]))
    else Then(Report([(worker, n)], None), WorkerFrom(worker, n + 1, batchCount, faults))
  }

  /** Workers `worker` up to `threads - 1` (`Integer#times` runs none for a count <= 0). */
  function WorkersFrom(worker: nat, threads: int, batchCount: int, faults: Faults): (r: Report)
    decreases threads - worker
  {
    if worker >= threads then Report([], None)
    else Then(WorkerFrom(worker, 0, batchCount, faults), WorkersFrom(worker + 1, threads, batchCount, faults))
  }

  /** The whole publish phase. */
  function PublishReport(threads: int, batchCount: int, faults: Faults): (r: Report)
  {
    WorkersFrom(0, threads, batchCount, faults)
  }

  /** The `put_record` requests for the given writes. */
  function Writes(stream: string, partitionKey: string, plan: seq<Write>): (calls: seq<Call>)
  {
    seq(|plan|, j requires 0 <= j < |plan| => PutRecord(stream, partitionKey, Payload(plan[j].0, plan[j].1)))
  }

  lemma WritesAppend(stream: string, partitionKey: string, plan: seq<Write>, w: Write)
    ensures Writes(stream, partitionKey, plan + [w])
         == Writes(stream, partitionKey, plan) + [PutRecord(stream, partitionKey, Payload(w.0, w.1))]
  {
  }

  lemma WritesConcat(stream: string, partitionKey: string, a: seq<Write>, b: seq<Write>)
    ensures Writes(stream, partitionKey, a + b) == Writes(stream, partitionKey, a) + Writes(stream, partitionKey, b)
  {
  }

  /** One write of a worker, appended to the writes it issued before. */
  lemma WorkerStep(worker: nat, n: nat, batchCount: int, faults: Faults, done: seq<Write>)
    requires n < batchCount
    ensures var before := Then(Report(done, None), WorkerFrom(worker, n, batchCount, faults));
      && ((worker, n) in faults ==> before == Report(done + [(worker, n)], Some(faults[(worker, n)])))
      && ((worker, n) !in faults ==>
            before == Then(Report(done + [(worker, n)], None), WorkerFrom(worker, n + 1, batchCount, faults)))
  {
  }

  /** A worker issues its writes 0, 1, 2, ... in order and stops right after the first one that
      raises, re-raising that write's exception; without a failing write it issues all
      `batchCount` of them. */
  lemma {:induction false} WorkerStopsAtFirstFault(worker: nat, n: nat, batchCount: int, faults: Faults)
    ensures var r := WorkerFrom(worker, n, batchCount, faults);
      && (forall j :: 0 <= j < |r.writes| ==> r.writes[j] == (worker, n + j))
      && (forall j :: 0 <= j < |r.writes| - 1 ==> r.writes[j] !in faults)
      && (r.raised.None? ==>
            |r.writes| == (if batchCount > n then batchCount - n else 0)
            && forall m :: n <= m < batchCount ==> (worker, m) !in faults)
      && (r.raised.Some? ==>
            |r.writes| > 0 && n + |r.writes| <= batchCount
            && var last := (worker, n + |r.writes| - 1);
               last in faults && r.raised == Some(faults[last]))
    decreases batchCount - n
  {
    if n < batchCount && (worker, n) !in faults {
      WorkerStopsAtFirstFault(worker, n + 1, batchCount, faults);
    }
  }

  /** Without faults every worker issues all its writes, so `threads * batchCount` writes are
      issued when both counts are positive, none otherwise, and nothing is raised. */
  lemma {:induction false} WorkersWriteEverything(worker: nat, threads: int, batchCount: int)
    ensures var r := WorkersFrom(worker, threads, batchCount, map[]);
      && r.raised.None?
      && |r.writes| == (if threads > worker then threads - worker else 0) * (if batchCount > 0 then batchCount else 0)
    decreases threads - worker
  {
    if worker < threads {
      WorkerStopsAtFirstFault(worker, 0, batchCount, map[]);
      WorkersWriteEverything(worker + 1, threads, batchCount);
      var b := if batchCount > 0 then batchCount else 0;
      assert (threads - worker) * b == b + (threads - (worker + 1)) * b;
    }
  }

  /** Publishing raises exactly when some write of some worker raises. */
  lemma {:induction false} PublishRaisesIff(worker: nat, threads: int, batchCount: int, faults: Faults)
    ensures WorkersFrom(worker, threads, batchCount, faults).raised.Some?
        <==> exists w :: w in faults && worker <= w.0 < threads && w.1 < batchCount
    decreases threads - worker
  {
    if worker < threads {
      WorkerStopsAtFirstFault(worker, 0, batchCount, faults);
      PublishRaisesIff(worker + 1, threads, batchCount, faults);
      var r := WorkerFrom(worker, 0, batchCount, faults);
      if r.raised.Some? {
        var last := (worker, |r.writes| - 1);
        assert last in faults && worker <= last.0 < threads && last.1 < batchCount;
      }
      if w :| w in faults && worker <= w.0 < threads && w.1 < batchCount {
        if w.0 == worker {
          assert r.raised.Some?;
        } else {
          assert worker + 1 <= w.0;
        }
      }
    }
  }

  /** Strict lexicographic order of writes: by worker, then by index within the worker. */
  predicate Before(v: Write, w: Write)
  {
    v.0 < w.0 || (v.0 == w.0 && v.1 < w.1)
  }

  predicate Ordered(plan: seq<Write>)
  {
    forall j, k :: 0 <= j < k < |plan| ==> Before(plan[j], plan[k])
  }

  /** `w` is a failing write of workers `worker..threads-1` within the batch, and no failing
      write of theirs comes before it in worker-then-write order. */
  predicate LeastFault(w: Write, worker: nat, threads: int, batchCount: int, faults: Faults)
  {
    && w in faults && worker <= w.0 < threads && w.1 < batchCount
    && forall v :: v in faults && worker <= v.0 < threads && v.1 < batchCount ==> !Before(v, w)
  }

  /** A worker that raised stopped at its first failing write from `n` on, and raised its error. */
  lemma {:induction false} WorkerRaisesAt(worker: nat, n: nat, batchCount: int, faults: Faults)
    requires WorkerFrom(worker, n, batchCount, faults).raised.Some?
    ensures var r := WorkerFrom(worker, n, batchCount, faults);
      var m := n + |r.writes| - 1;
      && |r.writes| > 0 && m < batchCount
      && (worker, m) in faults && r.raised == Some(faults[(worker, m)])
      && forall k :: n <= k < m ==> (worker, k) !in faults
    decreases batchCount - n
  {
    if (worker, n) !in faults {
      WorkerRaisesAt(worker, n + 1, batchCount, faults);
    }
  }

  /** A worker that raised raised at its own first failing write, which is then the least
      failing write of all workers from it on. */
  lemma FirstWorkerRaises(worker: nat, threads: int, batchCount: int, faults: Faults)
    requires worker < threads
    requires WorkerFrom(worker, 0, batchCount, faults).raised.Some?
    ensures var r := WorkerFrom(worker, 0, batchCount, faults);
      && |r.writes| > 0
      && LeastFault((worker, |r.writes| - 1), worker, threads, batchCount, faults)
      && r.raised == Some(faults[(worker, |r.writes| - 1)])
  {
    var r := WorkerFrom(worker, 0, batchCount, faults);
    WorkerRaisesAt(worker, 0, batchCount, faults);
    var last := (worker, |r.writes| - 1);
    forall v | v in faults && worker <= v.0 < threads && v.1 < batchCount
      ensures !Before(v, last)
    {
    }
  }

  /** A worker with no failing write leaves the least failing write of the later ones in place. */
  lemma LeastFaultPast(w: Write, worker: nat, threads: int, batchCount: int, faults: Faults)
    requires LeastFault(w, worker + 1, threads, batchCount, faults)
    requires forall m :: 0 <= m < batchCount ==> (worker, m) !in faults
    ensures LeastFault(w, worker, threads, batchCount, faults)
  {
    forall v | v in faults && worker <= v.0 < threads && v.1 < batchCount
      ensures !Before(v, w)
    {
    }
  }

  /** What publishing raises is the error of the first failing write of the lowest-index
      worker that has one: `Thread#join` runs in thread order, and a worker stops at its
      first failing write. */
  lemma {:induction false} PublishRaisesFirstFault(worker: nat, threads: int, batchCount: int, faults: Faults)
    ensures var r := WorkersFrom(worker, threads, batchCount, faults);
      r.raised.Some? ==>
        exists w :: LeastFault(w, worker, threads, batchCount, faults) && r.raised == Some(faults[w])
    decreases threads - worker
  {
    if worker < threads {
      var r := WorkerFrom(worker, 0, batchCount, faults);
      if r.raised.Some? {
        FirstWorkerRaises(worker, threads, batchCount, faults);
        assert LeastFault((worker, |r.writes| - 1), worker, threads, batchCount, faults);
      } else {
        WorkerStopsAtFirstFault(worker, 0, batchCount, faults);
        PublishRaisesFirstFault(worker + 1, threads, batchCount, faults);
        var rest := WorkersFrom(worker + 1, threads, batchCount, faults);
        if rest.raised.Some? {
          var w :| LeastFault(w, worker + 1, threads, batchCount, faults) && rest.raised == Some(faults[w]);
          LeastFaultPast(w, worker, threads, batchCount, faults);
        }
      }
    }
  }

  lemma OrderedConcat(a: seq<Write>, b: seq<Write>)
    requires Ordered(a) && Ordered(b)
    requires forall j, k :: 0 <= j < |a| && 0 <= k < |b| ==> Before(a[j], b[k])
    ensures Ordered(a + b)
  {
  }

  /** The writes of workers `worker..threads-1` are in increasing order and within range. */
  lemma {:induction false} WorkersOrdered(worker: nat, threads: int, batchCount: int, faults: Faults)
    ensures var r := WorkersFrom(worker, threads, batchCount, faults);
      && Ordered(r.writes)
      && forall j :: 0 <= j < |r.writes| ==> worker <= r.writes[j].0 < threads && r.writes[j].1 < batchCount
    decreases threads - worker
  {
    if worker < threads {
      var w := WorkerFrom(worker, 0, batchCount, faults);
      var rest := WorkersFrom(worker + 1, threads, batchCount, faults);
      WorkerStopsAtFirstFault(worker, 0, batchCount, faults);
      WorkersOrdered(worker + 1, threads, batchCount, faults);
      OrderedConcat(w.writes, rest.writes);
    }
  }

  /** Every `put_record` of the publish phase goes to the same stream with the same partition
      key, writes are within the worker and batch bounds, and no two carry the same payload. */
  lemma PublishCallsDistinct(stream: string, partitionKey: string, threads: int, batchCount: int, faults: Faults)
    ensures var plan := PublishReport(threads, batchCount, faults).writes;
      var calls := Writes(stream, partitionKey, plan);
      && |calls| == |plan|
      && (forall j :: 0 <= j < |calls| ==>
            && calls[j] == PutRecord(stream, partitionKey, Payload(plan[j].0, plan[j].1))
            && plan[j].0 < threads && plan[j].1 < batchCount)
      && (forall j, k :: 0 <= j < k < |calls| ==> calls[j].data != calls[k].data)
  {
    var plan := PublishReport(threads, batchCount, faults).writes;
    var calls := Writes(stream, partitionKey, plan);
    WorkersOrdered(0, threads, batchCount, faults);
    forall j, k | 0 <= j < k < |calls| ensures calls[j].data != calls[k].data {
      assert Before(plan[j], plan[k]);
      if calls[j].data == calls[k].data {
        PayloadInjective(plan[j].0, plan[j].1, plan[k].0, plan[k].1);
      }
    }
  }

  /** With no write failing, `publish` issues one `put_record` per stored iteration: the
      rounded count, `threads * floor(requested / threads)`, when the requested count is not
      negative. */
  lemma PublishIssuesIterations(requested: int, threads: int)
    requires threads > 0 && requested >= 0
    ensures var iterations := RoundIterations(requested, threads).value;
      var r := PublishReport(threads, FloorDiv(iterations, threads), map[]);
      && r.raised.None?
      && |r.writes| == iterations == threads * FloorDiv(requested, threads)
  {
    var q := FloorDiv(requested, threads);
    var iterations := RoundIterations(requested, threads).value;
    assert iterations == q * threads;
    assert q == requested / threads && q >= 0;
    BatchCountOfRounded(requested, threads);
    assert FloorDiv(iterations, threads) == q;
    WorkersWriteEverything(0, threads, q);
  }
}
