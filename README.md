# Kinesis Firehose batch writer: the WriteBatch delivery loop

This project models `kinesisFirehoseWriter.WriteBatch` from the Kinesis Firehose
output, along with the deterministic `PutRecordBatch` mocks its tests use. It
then proves what the writer promises.

WriteBatch works as follows:

- It seeds a pending queue from the message batch.
- On each attempt it takes the leading chunk of at most `kinesisMaxRecordsCount`
  (500) records and hands that chunk to `PutRecordBatch`.
- A whole-call error leaves the queue unchanged.
- Otherwise the accepted records leave the queue. The records whose response
  entry carries an error code go back to the head of the queue, in order, ahead
  of the records not yet tried.
- Every imperfect attempt consults the retry policy. An attempt is imperfect if
  the whole call failed or at least one record was rejected. The policy is a
  backoff capped at a number of retries (`backoff.WithMaxRetries`).
- When the policy answers Stop, WriteBatch returns one of two errors:
  - after a whole-call failure, the call's own error, verbatim;
  - after rejections, an error naming the number of records still rejected.
- An empty queue means success.

Modules:

- `Firehose`: the types, plus the queue operations:
  - `Chunk` takes the leading chunk;
  - `Rejected` and `Accepted` classify a chunk's records;
  - `Commit` builds the next queue;
  - `CollectFailed` is the loop that gathers the rejected records.
- `Backoff`: `RetryBudget`, the retry count of `WithMaxRetries`.
- `Delivery`: `Deliver`, the delivery loop as a specification function over an
  abstract capability (the `PutRecordBatch` call), and the lemmas about it.
- `Mocks`: one `Behaviour` per test mock, and `MockFirehose`, a class that
  answers by its behaviour and records every call it receives. The two
  throttling mocks build their response in a counting loop (`ThrottledOutput`).
- `Writer`: `WriteBatch`, an imperative loop over an explicit queue and a
  `RetryBudget` object. It is proved to make exactly the calls of `Deliver` and
  return its result.
- `Scenarios`: one lemma per test for every payload, and one verified
  `WriteBatch` run per test against a `MockFirehose`.
- `Subsequences`: order-preserving deletion, used to state that records keep
  the batch's order.

The implementation file of WriteBatch is not part of this model. The loop is
reconstructed from its tests, which fix exact call counts, call sizes and
results. Three decisions go beyond what the tests pin down:

- **When the retry policy is consulted.** It is asked only after an imperfect
  attempt. A clean attempt never spends a retry. This is what lets 1200 records
  need only three retries against the rejecting mock.
- **Which records count as rejected.** A record counts as rejected only when its
  own response entry says so. A record beyond the last response entry counts as
  accepted. This is how the tests' empty outputs mean "all accepted".
- **The retry budget for tests that use the default policy.** Those tests use an
  exponential backoff that is not capped by a retry count. For them, every retry budget at least as large
  as the scenario needs is covered (three retries for the 1200-record
  throttling test, two for the three-record one).

## Model

| member | source | states |
|---|---|---|
| Firehose.Chunk | internal/impl/aws/output_kinesis_firehose_test.go:109-121 | the chunk is a prefix of the queue of at most 500 records, and is the whole queue or exactly 500 records |
| Firehose.SelectIsSubseq | internal/impl/aws/output_kinesis_firehose_test.go:136-145 | the accepted and the rejected records of a call each keep the call's order |
| Firehose.Partition | internal/impl/aws/output_kinesis_firehose_test.go:138-146 | every record of a call is either accepted or rejected, never both: multisets and counts add up to the call |
| Firehose.RejectedFrom | internal/impl/aws/output_kinesis_firehose_test.go:140-144 | when the entries flag exactly the positions from `first` on, the rejected records are the chunk from `first` on and the accepted ones the rest |
| Firehose.NoneRejected | internal/impl/aws/output_kinesis_firehose_test.go:52 | a chunk with no rejected record is accepted entire |
| Firehose.Commit | internal/impl/aws/output_kinesis_firehose_test.go:242-246 | the next queue is shorter than the old queue by exactly the number of accepted records |
| Firehose.CommitKeeps | internal/impl/aws/output_kinesis_firehose_test.go:204-247 | committing loses no record (old queue = accepted + next queue as multisets), puts the rejected records at the head of the next queue, and keeps the queue's order |
| Firehose.CollectFailed | internal/impl/aws/output_kinesis_firehose_test.go:236-246 | gathering the flagged records entry by entry yields exactly the rejected records, in order |
| Backoff.RetryBudget.constructor | internal/impl/aws/output_kinesis_firehose_test.go:188-190 | a fresh policy has granted no retry, and all maxRetries remain |
| Backoff.RetryBudget.NextBackOff | internal/impl/aws/output_kinesis_firehose_test.go:266-268 | Stop exactly when no retry remains; otherwise one retry fewer remains |
| Delivery.Deliver | internal/impl/aws/output_kinesis_firehose_test.go:87-122 | the delivery loop over a pending queue and the retries left: no records pending means success with no call; otherwise each call carries the queue's leading chunk; a whole-call failure keeps the queue and either retries it with one retry fewer or returns the call's error; an output commits the response, spends a retry when some record was rejected, and fails naming the rejected count when no retry is left. Its contract: there is a call exactly when records are pending, the first call carries the queue's chunk, and the write succeeds exactly when nothing is left pending |
| Delivery.Conservation | internal/impl/aws/output_kinesis_firehose_test.go:163-165 | every record of the batch is either confirmed or still pending at the end; what is pending is a subsequence of the batch; pending is empty exactly on success |
| Delivery.AcceptedIsConfirmed | internal/impl/aws/output_kinesis_firehose_test.go:236-246 | the records the loop books as confirmed are exactly those the answers to its calls accepted, call by call and in order; a call that failed as a whole confirms none |
| Delivery.NoSilentDrop | internal/impl/aws/output_kinesis_firehose_test.go:236-238 | WriteBatch succeeds if and only if the records the capability's answers accepted, over all calls, are exactly the batch, as a multiset |
| Delivery.CallsAreBoundedChunks | internal/impl/aws/output_kinesis_firehose_test.go:112-121 | there is a call if and only if the batch is non-empty, and every call carries 1 to 500 records of the batch in batch order |
| Delivery.RetryAccounting | internal/impl/aws/output_kinesis_firehose_test.go:199-201 | a failed write made exactly retries + 1 imperfect attempts; a successful one made at most retries |
| Delivery.FailureComesFromLastCall | internal/impl/aws/output_kinesis_firehose_test.go:196-198 | a failed write returns what its last call answered: that call's error verbatim, or the positive number of records that call rejected |
| Delivery.ChunkSizes | internal/impl/aws/output_kinesis_firehose_test.go:112-121 | the sizes the test expects call by call: each between 1 and 500, every one but the last exactly 500, adding up to n |
| Delivery.ChunkCount | internal/impl/aws/output_kinesis_firehose_test.go:109 | splitting n records into full chunks and one shorter last chunk takes ceil(n / 500) chunks |
| Delivery.AlwaysAccepting | internal/impl/aws/output_kinesis_firehose_test.go:87-122 | against a capability that accepts every call, the calls are consecutive 500-record chunks of the batch with one shorter last chunk, ceil(n / 500) calls in all, every record is confirmed in batch order, and the write succeeds |
| Delivery.AlwaysFailingCall | internal/impl/aws/output_kinesis_firehose_test.go:176-202 | against a capability whose call always fails, WriteBatch makes retries + 1 identical calls, confirms nothing, and returns that call's error verbatim |
| Delivery.AlwaysRejectingAll | internal/impl/aws/output_kinesis_firehose_test.go:249-280 | against a capability that rejects every record of the call, the queue never changes: retries + 1 identical calls, then failure naming the whole chunk as rejected |
| Delivery.ThrottledStep | internal/impl/aws/output_kinesis_firehose_test.go:124-174 | one retried attempt whose rejections start at `first` confirms the first `first` records, and the loop continues exactly on the queue from `first` on |
| Delivery.ThrottledLastAttempt | internal/impl/aws/output_kinesis_firehose_test.go:249-280 | the same attempt with no retry left fails, naming the chunk size less `first` |
| Mocks.Respond | internal/impl/aws/output_kinesis_firehose_test.go:48-263 | each test mock's answer to one call: a whole-call failure only from the always-failing mock (its error text kept) or from the length-checking mocks on a length mismatch (both lengths kept); otherwise each position of the call is flagged rejected exactly as that mock means: from position `first` on (300 in the test), every position but the first, only the first, or none |
| Mocks.MockOutcomes | internal/impl/aws/output_kinesis_firehose_test.go:48-263 | for each mock, the call fails as a whole exactly for the failing mock and for a length mismatch; otherwise the records rejected are those the mock means to reject, and a failed count it reports equals their number |
| Mocks.SingleEntryRejectsFirst | internal/impl/aws/output_kinesis_firehose_test.go:255-263 | a response with a single erroring entry rejects the first record of the call and no other |
| Mocks.ThrottledOutput | internal/impl/aws/output_kinesis_firehose_test.go:134-148 | the counting loop builds one entry per record, flags exactly the positions from `first` on, and reports that many as failed |
| Mocks.MockFirehose.PutRecordBatch | internal/impl/aws/output_kinesis_firehose_test.go:19-26 | the mock records the call's records after those of earlier calls and answers as its behaviour says |
| Writer.WriteBatch | internal/impl/aws/output_kinesis_firehose_test.go:106-111 | the calls WriteBatch makes are exactly those of the delivery loop, in order, and it returns the loop's result |
| Scenarios.WholeBatchInOneCall | internal/impl/aws/output_kinesis_firehose_test.go:46-85 | a batch of up to 500 records that the mock expects whole goes out in a single call carrying the batch, and the write succeeds |
| Scenarios.AcceptAllIsPerfect | internal/impl/aws/output_kinesis_firehose_test.go:93-97 | an output with no entries and no failed count leaves no record rejected, so no retry is spent |
| Scenarios.WriteChunk | internal/impl/aws/output_kinesis_firehose_test.go:87-122 | 1200 records against the accepting mock go out as calls of 500, 500 and 200 records covering the batch in order, and the write succeeds |
| Scenarios.TestExpectedCallCount | internal/impl/aws/output_kinesis_firehose_test.go:109 | the call count the chunking test expects as written: the number of full 500-record chunks in n, plus one, so the c with (c - 1) * 500 <= n < c * 500 |
| Scenarios.TestExpectedCallCountAsWritten | internal/impl/aws/output_kinesis_firehose_test.go:109 | the count formula as written says 3 for 1000 records, yet WriteBatch makes 2 calls |
| Scenarios.ExpectedCallCountIsCallCount | internal/impl/aws/output_kinesis_firehose_test.go:109 | against the accepting mock the call count is ceil(n / 500) for every n; this agrees with the formula as written except on exact multiples of 500, where the formula says one call more |
| Scenarios.ThrottlingMocks | internal/impl/aws/output_kinesis_firehose_test.go:131-149 | the mock that rejects from position 300 and the mock that accepts only position 0 reject exactly the positions from 300, and from 1, in every call |
| Scenarios.ThrottledRun | internal/impl/aws/output_kinesis_firehose_test.go:124-174 | with enough retries, a capability that rejects from `first` on receives the throttled calls (each the chunk of a queue that starts `first` records further on), every record is confirmed in batch order, and the write succeeds |
| Scenarios.ThrottledRunStep | internal/impl/aws/output_kinesis_firehose_test.go:159-173 | for a queue longer than `first`, one throttled call followed by the run from `first` records on is again a successful throttled run |
| Scenarios.ThrottledRunExhausted | internal/impl/aws/output_kinesis_firehose_test.go:249-280 | with fewer retries than needed, the write fails after retries + 1 calls, naming the positive number of records its last call rejected |
| Scenarios.WriteChunkWithThrottling | internal/impl/aws/output_kinesis_firehose_test.go:124-174 | 1200 records rejected from position 300 on go out as batch[0..500], batch[300..800], batch[600..1100] and batch[900..1200] (sizes 500, 500, 500, 300), and the write succeeds |
| Scenarios.ThrottlingExhaustsSmallBudget | internal/impl/aws/output_kinesis_firehose_test.go:124-174 | with fewer than three retries that batch fails on its last permitted call, naming the 200 records it rejected |
| Scenarios.WriteError | internal/impl/aws/output_kinesis_firehose_test.go:176-202 | with two retries and a mock that always fails with "blah", three calls are made and the write returns "blah" |
| Scenarios.WriteMessageThrottling | internal/impl/aws/output_kinesis_firehose_test.go:204-247 | three records, only the first of each call accepted: the calls carry the three records, then the last two, then the last one, every record is confirmed in order, and the write succeeds |
| Scenarios.WriteBackoffMaxRetriesExceeded | internal/impl/aws/output_kinesis_firehose_test.go:249-280 | with two retries and the single record rejected every time, three calls are made and the write fails |
| Scenarios.RunWriteWholeBatch | internal/impl/aws/output_kinesis_firehose_test.go:46-85 | WriteBatch of one or two records through the length-checking mock succeeds, and the mock recorded one call carrying the batch |
| Scenarios.RunWriteChunk | internal/impl/aws/output_kinesis_firehose_test.go:87-122 | WriteBatch of 1200 records succeeds, and the mock recorded calls of 500, 500 and 200 records |
| Scenarios.RunWriteChunkWithThrottling | internal/impl/aws/output_kinesis_firehose_test.go:159-173 | WriteBatch of 1200 records through the mock that rejects from position 300 succeeds, and the mock recorded calls of 500, 500, 500 and 300 records |
| Scenarios.RunWriteError | internal/impl/aws/output_kinesis_firehose_test.go:176-202 | WriteBatch with two retries returns the mock's "blah" error, and the mock counted three calls |
| Scenarios.RunWriteMessageThrottling | internal/impl/aws/output_kinesis_firehose_test.go:204-247 | WriteBatch of three records succeeds, and the mock recorded calls of 3, 2 and 1 records |
| Scenarios.RunWriteBackoffMaxRetriesExceeded | internal/impl/aws/output_kinesis_firehose_test.go:249-280 | WriteBatch with two retries fails, naming one rejected record, and the mock counted three calls |

## Left out

- The AWS session, the static credentials, the SDK request and response types, and the embedded client interface. These are library plumbing. The client is the `Capability` function, or the `MockFirehose` object.
- Backoff delays, sleeping and elapsed-time limits. Only the count of retries is modelled. The default policy, which is not capped by a retry count, is modelled as any sufficient retry budget.
- Context cancellation and deadlines, and the tests running in parallel. These concern timing and concurrency, not the loop.
- Record payloads and the per-part key. Records are opaque byte strings.
- Per-record error codes and error messages. An entry just says whether the record was rejected; no test tells codes apart.
- The failed-put count. It is carried in the response, but only the entries classify records. `Mocks.MockOutcomes` shows that every mock keeps the two consistent.
- Formatting of error texts. A length mismatch is kept as the two numbers; a fixed text is kept whole.
- Delivery.Deliver: the capability is a function of the chunk alone, so it answers a given chunk the same way on every call. A client that recovers after a transient whole-call failure, or that accepts on a later try a chunk it fully rejected before, is not represented; no test needs one, since every mock answers by the call's records alone.
- The implementation file of WriteBatch is not part of this model. Beyond what the tests fix, the loop follows the three decisions stated at the top of this file.

## Findings

| source | as written | input that shows it | evidently intended | confidence | as-written member | corrected member |
|---|---|---|---|---|---|---|
| internal/impl/aws/output_kinesis_firehose_test.go:109 | the expected call count is `n / kinesisMaxRecordsCount + 1` | n = 1000 records: the formula expects 3 calls, but the loop makes 2 (500 and 500) | ceil(n / 500) calls, that is (n + 499) / 500 | not executed; latent, since the test fixes n = 1200, where both give 3 | Scenarios.TestExpectedCallCountAsWritten | Scenarios.ExpectedCallCountIsCallCount |
