/** WriteBatch of the Kinesis Firehose output: the chunked, retrying delivery
    loop over an explicit pending queue and a per-call retry budget. */
module Writer {
  import opened Firehose
  import opened Delivery
  import opened Backoff
  import opened Mocks

  /** Delivers `batch` through `firehose`, allowing `maxRetries` retries (the
      policy the writer's backoff constructor makes for the call). The calls it
      makes and what it returns are those of the delivery loop Deliver. */
  method WriteBatch(firehose: MockFirehose, maxRetries: nat, batch: seq<Record>) returns (result: WriteResult)
    modifies firehose
    ensures firehose.calls == old(firehose.calls) + Deliver(batch, maxRetries, AsCapability(firehose.behaviour)).calls
    ensures result == Deliver(batch, maxRetries, AsCapability(firehose.behaviour)).result
  {
    ghost var put := AsCapability(firehose.behaviour);
    ghost var run := Deliver(batch, maxRetries, put);
    ghost var sent: seq<seq<Record>> := [];
    ghost var left: nat := maxRetries;
    var backoff := new RetryBudget(maxRetries);
    var pending := batch;
    while pending != []
      invariant backoff.Valid() && left == backoff.Remaining()
      invariant firehose.calls == old(firehose.calls) + sent
      invariant sent + Deliver(pending, left, put).calls == run.calls
      invariant Deliver(pending, left, put).result == run.result
      decreases left, |pending|
    {
      var chunk := Chunk(pending);
      ghost var queue := pending;
      var response := firehose.PutRecordBatch(chunk);
      Assoc(old(firehose.calls), sent, [chunk]);
      match response {
        case PutFailed(e) =>
          FailedCallStep(queue, left, put);
          var stop := backoff.NextBackOff();
          if stop {
            return Failure(Transport(e));
          }
          // the whole queue is retried after the delay
          Assoc(sent, [chunk], Deliver(queue, left - 1, put).calls);
          left := left - 1;
        case Output(_, entryFailed) =>
          OutputStep(queue, left, put);
          var failed := CollectFailed(chunk, entryFailed);
          pending := failed + pending[|chunk|..];
          assert pending == Commit(queue, entryFailed);
          if failed != [] {
            var stop := backoff.NextBackOff();
            if stop {
              return Failure(RetriesExhausted(|failed|));
            }
            left := left - 1;
          }
          Assoc(sent, [chunk], Deliver(pending, left, put).calls);
      }
      sent := sent + [chunk];
    }
    result := Success;
  }
}
