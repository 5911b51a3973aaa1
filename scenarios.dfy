/** The writer's test scenarios, as lemmas about the delivery loop (for every
    payload and, where the test uses the default backoff, every sufficient retry
    budget) and as verified runs of WriteBatch against a recording mock. */
module Scenarios {
  import opened Firehose
  import opened Delivery
  import opened Mocks
  import opened Writer

  /** A batch the mock expects in full is written in one call carrying every
      record, and the write succeeds (one record and two records in the tests). */
  lemma WholeBatchInOneCall(batch: seq<Record>, retries: nat)
    requires 0 < |batch| <= MaxRecordsCount
    ensures var r := Deliver(batch, retries, AsCapability(ExpectLength(|batch|)));
      r.calls == [batch] && r.result == Success
  {
    MockOutcomes(ExpectLength(|batch|), batch);
    assert Chunk(batch) == batch;
    assert Commit(batch, []) == [];
  }

  /** Every call of the accepting mock succeeds entire. */
  lemma AcceptAllIsPerfect()
    ensures forall c :: !Imperfect(c, AsCapability(AcceptAll)(c))
  {
    forall c
      ensures !Imperfect(c, AsCapability(AcceptAll)(c))
    {
      if c != [] {
        MockOutcomes(AcceptAll, c);
      }
    }
  }

  /** 1200 records against the accepting mock go out as 500, 500 and 200 records,
      in batch order, and the write succeeds. */
  lemma WriteChunk(batch: seq<Record>, retries: nat)
    requires |batch| == 1200
    ensures var r := Deliver(batch, retries, AsCapability(AcceptAll));
      && r.result == Success
      && Sizes(r.calls) == [500, 500, 200]
      && |r.calls| == ExpectedCallCount(|batch|)
      && Flatten(r.calls) == batch
  {
    AcceptAllIsPerfect();
    AlwaysAccepting(batch, retries, AsCapability(AcceptAll));
  }

  /** The call count the chunking test expects, as written: the number of full
      chunks in `n` records, plus one. */
  function TestExpectedCallCount(n: nat): (c: nat)
    ensures 1 <= c
    ensures (c - 1) * MaxRecordsCount <= n < c * MaxRecordsCount
  {
    n / MaxRecordsCount + 1
  }

  /** The count as written is off by one on every exact multiple of
      MaxRecordsCount: 1000 records go out in two calls, not three. */
  lemma TestExpectedCallCountAsWritten(batch: seq<Record>, retries: nat)
    requires |batch| == 1000
    ensures TestExpectedCallCount(|batch|) == 3
    ensures |Deliver(batch, retries, AsCapability(AcceptAll)).calls| == 2
  {
    AcceptAllIsPerfect();
    AlwaysAccepting(batch, retries, AsCapability(AcceptAll));
  }

  /** The call count as intended: ceil(n / MaxRecordsCount). */
  function ExpectedCallCount(n: nat): nat
  {
    (n + MaxRecordsCount - 1) / MaxRecordsCount
  }

  /** Against the accepting mock, every batch takes exactly the intended number
      of calls; the count as written agrees except on exact multiples. */
  lemma ExpectedCallCountIsCallCount(batch: seq<Record>, retries: nat)
    ensures |Deliver(batch, retries, AsCapability(AcceptAll)).calls| == ExpectedCallCount(|batch|)
    ensures |batch| % MaxRecordsCount != 0 ==> ExpectedCallCount(|batch|) == TestExpectedCallCount(|batch|)
    ensures |batch| % MaxRecordsCount == 0 ==> TestExpectedCallCount(|batch|) == ExpectedCallCount(|batch|) + 1
  {
    AcceptAllIsPerfect();
    AlwaysAccepting(batch, retries, AsCapability(AcceptAll));
  }

  /** A capability that, in every call, rejects exactly the positions from
      `first` on. */
  ghost predicate RejectsFromPosition(put: Capability, first: nat)
  {
    forall c {:trigger Answer(put, c)} :: RejectsFrom(Answer(put, c), |c|, first)
  }

  /** The capability's answer to a call; a name for the quantifier above to
      trigger on, so that only calls a proof asks about are instantiated. */
  function Answer(put: Capability, c: seq<Record>): Response
  {
    put(c)
  }

  /** The answer to one call of such a capability. */
  lemma RejectsAt(put: Capability, first: nat, c: seq<Record>)
    requires RejectsFromPosition(put, first)
    ensures RejectsFrom(put(c), |c|, first)
  {
    assert RejectsFrom(Answer(put, c), |c|, first);
  }

  /** The mock that rejects from position 300 and the one that accepts only the
      first record are such capabilities. */
  lemma ThrottlingMocks(first: nat)
    ensures RejectsFromPosition(AsCapability(RejectFrom(first)), first)
    ensures RejectsFromPosition(AsCapability(AcceptFirstOnly), 1)
  {
    forall c
      ensures RejectsFrom(Answer(AsCapability(RejectFrom(first)), c), |c|, first)
      ensures RejectsFrom(Answer(AsCapability(AcceptFirstOnly), c), |c|, 1)
    {
    }
  }

  /** The calls a throttling capability receives when retries never run out:
      each call carries the pending queue's chunk, and the queue then starts
      `first` records further on, until the queue fits in one accepted call. */
  function ThrottledCalls(pending: seq<Record>, first: nat): seq<seq<Record>>
    requires 0 < first
    decreases |pending|
  {
    if |pending| <= first then [pending]
    else [Chunk(pending)] + ThrottledCalls(pending[first..], first)
  }

  /** The retries those calls need: one for every call but the last. */
  function RetriesNeeded(n: nat, first: nat): nat
    requires 0 < first
    decreases n
  {
    if n <= first then 0 else 1 + RetriesNeeded(n - first, first)
  }

  /** A successful throttled run: the throttled calls, every record confirmed
      in batch order, and success. */
  ghost predicate ThrottledSuccess(r: Run, pending: seq<Record>, first: nat)
    requires 0 < first
  {
    r.calls == ThrottledCalls(pending, first) && r.accepted == pending && r.result == Success
  }

  /** With enough retries, a capability that rejects every position from
      `first` on receives the throttled calls, and the write succeeds with every
      record confirmed in batch order. */
  lemma {:induction false} ThrottledRun(pending: seq<Record>, retries: nat, put: Capability, first: nat)
    requires 0 < first < MaxRecordsCount && pending != []
    requires RejectsFromPosition(put, first)
    requires retries >= RetriesNeeded(|pending|, first)
    ensures ThrottledSuccess(Deliver(pending, retries, put), pending, first)
    decreases |pending|, 1
  {
    if |pending| <= first {
      ThrottledLastCall(pending, retries, put, first);
    } else {
      ThrottledRunStep(pending, retries, put, first);
    }
  }

  /** A queue longer than `first`: one throttled call, then the run from
      `first` records on. */
  lemma {:induction false} ThrottledRunStep(pending: seq<Record>, retries: nat, put: Capability, first: nat)
    requires 0 < first < MaxRecordsCount && first < |pending|
    requires RejectsFromPosition(put, first)
    requires retries >= RetriesNeeded(|pending|, first)
    ensures ThrottledSuccess(Deliver(pending, retries, put), pending, first)
    decreases |pending|, 0
  {
    ThrottledRun(pending[first..], retries - 1, put, first);
    RejectsAt(put, first, Chunk(pending));
    ThrottledStep(pending, retries, put, first);
    assert pending == pending[..first] + pending[first..];
  }

  /** A call of at most `first` records is accepted entire and empties the queue. */
  lemma ThrottledLastCall(pending: seq<Record>, retries: nat, put: Capability, first: nat)
    requires 0 < |pending| <= first && |pending| <= MaxRecordsCount
    requires RejectsFromPosition(put, first)
    ensures Deliver(pending, retries, put) == Run([pending], pending, [], Success)
  {
    assert Chunk(pending) == pending;
    RejectsAt(put, first, pending);
    var flags := put(pending).entryFailed;
    RejectedFrom(pending, flags, first);
    assert pending[|pending|..] == [] && pending[..|pending|] == pending;
    assert Commit(pending, flags) == [];
    assert Deliver(pending, retries, put) == After(pending, pending, Deliver([], retries, put));
  }

  /** The number of records the `k`-th throttled attempt (counting from 0)
      leaves rejected: its chunk, less the `first` records it accepts. */
  function RejectedAt(pending: seq<Record>, first: nat, k: nat): nat
    requires 0 < first
    decreases k
  {
    if k == 0 || |pending| <= first then (if |Chunk(pending)| > first then |Chunk(pending)| - first else 0)
    else RejectedAt(pending[first..], first, k - 1)
  }

  /** With fewer retries than needed, the write fails after retries + 1 calls,
      naming the records its last call rejected. */
  lemma {:induction false} ThrottledRunExhausted(pending: seq<Record>, retries: nat, put: Capability, first: nat)
    requires 0 < first < MaxRecordsCount
    requires RejectsFromPosition(put, first)
    requires retries < RetriesNeeded(|pending|, first)
    ensures var r := Deliver(pending, retries, put);
      && |r.calls| == retries + 1
      && r.result == Failure(RetriesExhausted(RejectedAt(pending, first, retries)))
      && RejectedAt(pending, first, retries) > 0
    decreases retries
  {
    if retries == 0 {
      ExhaustedOnFirstCall(pending, put, first);
    } else {
      assert |pending| > first;
      RejectsAt(put, first, Chunk(pending));
      ThrottledStep(pending, retries, put, first);
      ThrottledRunExhausted(pending[first..], retries - 1, put, first);
    }
  }

  lemma ExhaustedOnFirstCall(pending: seq<Record>, put: Capability, first: nat)
    requires 0 < first < MaxRecordsCount
    requires RejectsFromPosition(put, first)
    requires |pending| > first
    ensures var r := Deliver(pending, 0, put);
      && |r.calls| == 1
      && r.result == Failure(RetriesExhausted(|Chunk(pending)| - first))
  {
    RejectsAt(put, first, Chunk(pending));
    ThrottledLastAttempt(pending, put, first);
  }

  /** 1200 records against a capability that rejects every position from 300
      on: the 200 rejected records of each call go back ahead of the untried
      tail and each call is refilled to 500, so the calls carry 500, 500, 500 and
      300 records; with at least three retries the write succeeds. */
  lemma WriteChunkWithThrottling(batch: seq<Record>, retries: nat, put: Capability)
    requires |batch| == 1200 && retries >= 3 && RejectsFromPosition(put, 300)
    ensures var r := Deliver(batch, retries, put);
      && r.calls == [batch[..500], batch[300..800], batch[600..1100], batch[900..]]
      && Sizes(r.calls) == [500, 500, 500, 300]
      && r.result == Success
  {
    assert RetriesNeeded(1200, 300) == 3;
    ThrottledRun(batch, retries, put, 300);
    var p1, p2, p3 := batch[300..], batch[600..], batch[900..];
    assert p1[300..] == p2 && p2[300..] == p3;
    assert ThrottledCalls(p3, 300) == [p3];
    assert ThrottledCalls(p2, 300) == [Chunk(p2), p3];
    assert ThrottledCalls(p1, 300) == [Chunk(p1), Chunk(p2), p3];
    assert ThrottledCalls(batch, 300) == [Chunk(batch), Chunk(p1), Chunk(p2), p3];
    assert Chunk(p2) == batch[600..1100] && Chunk(p1) == batch[300..800] && Chunk(batch) == batch[..500];
  }

  /** With fewer than three retries the same batch fails on its last permitted
      call, naming the 200 records that call rejected. */
  lemma ThrottlingExhaustsSmallBudget(batch: seq<Record>, retries: nat, put: Capability)
    requires |batch| == 1200 && retries < 3 && RejectsFromPosition(put, 300)
    ensures var r := Deliver(batch, retries, put);
      |r.calls| == retries + 1 && r.result == Failure(RetriesExhausted(200))
  {
    assert RetriesNeeded(1200, 300) == 3;
    ThrottledRunExhausted(batch, retries, put, 300);
    if retries > 0 {
      assert RejectedAt(batch, 300, retries) == RejectedAt(batch[300..], 300, retries - 1);
      if retries > 1 {
        assert RejectedAt(batch[300..], 300, 1) == RejectedAt(batch[600..], 300, 0);
      }
    }
  }

  /** A mock that fails every call, with two retries allowed: three calls, and
      the write returns the mock's own error verbatim. */
  lemma WriteError(batch: seq<Record>)
    requires |batch| == 1
    ensures var r := Deliver(batch, 2, AsCapability(FailCall("blah")));
      |r.calls| == 3 && r.result == Failure(Transport(Message("blah")))
  {
    AlwaysFailingCall(batch, 2, AsCapability(FailCall("blah")), Message("blah"));
  }

  /** Three records against a capability that accepts only the first record of
      each call: only the rejected records are resubmitted, so the calls carry
      the three records, then the last two, then the last one; with at least two
      retries the write succeeds with every record confirmed in batch order. */
  lemma WriteMessageThrottling(batch: seq<Record>, retries: nat, put: Capability)
    requires |batch| == 3 && retries >= 2 && RejectsFromPosition(put, 1)
    ensures var r := Deliver(batch, retries, put);
      && r.calls == [batch, batch[1..], batch[2..]]
      && Sizes(r.calls) == [3, 2, 1]
      && r.accepted == batch
      && r.result == Success
  {
    assert RetriesNeeded(3, 1) == 2;
    ThrottledRun(batch, retries, put, 1);
    var p1, p2 := batch[1..], batch[2..];
    assert p1[1..] == p2;
    assert ThrottledCalls(p2, 1) == [p2];
    assert ThrottledCalls(batch, 1) == [Chunk(batch), Chunk(p1), p2];
    assert Chunk(p1) == p1 && Chunk(batch) == batch;
  }

  /** A mock that rejects the single record every time, with two retries
      allowed: three calls, and the write fails. */
  lemma WriteBackoffMaxRetriesExceeded(batch: seq<Record>)
    requires |batch| == 1
    ensures var r := Deliver(batch, 2, AsCapability(RejectOneEntry));
      |r.calls| == 3 && r.result == Failure(RetriesExhausted(1))
  {
    AlwaysRejectingAll(batch, 2, AsCapability(RejectOneEntry));
  }

  /** The single- and multi-part tests: WriteBatch through the mock that
      expects the whole batch in one call. */
  method RunWriteWholeBatch(batch: seq<Record>) returns (result: WriteResult, calls: seq<seq<Record>>)
    requires |batch| == 1 || |batch| == 2
    ensures result == Success && calls == [batch]
  {
    var firehose := new MockFirehose(ExpectLength(|batch|));
    WholeBatchInOneCall(batch, 0);
    result := WriteBatch(firehose, 0, batch);
    calls := firehose.calls;
  }

  /** The chunking test: WriteBatch of 1200 records through the accepting mock,
      recording the size of every call. */
  method RunWriteChunk(batch: seq<Record>) returns (result: WriteResult, batchLengths: seq<nat>)
    requires |batch| == 1200
    ensures result == Success && batchLengths == [500, 500, 200]
  {
    var firehose := new MockFirehose(AcceptAll);
    WriteChunk(batch, 0);
    result := WriteBatch(firehose, 0, batch);
    batchLengths := Sizes(firehose.calls);
  }

  /** The throttled chunking test, with the three retries it needs. */
  method RunWriteChunkWithThrottling(batch: seq<Record>) returns (result: WriteResult, batchLengths: seq<nat>)
    requires |batch| == 1200
    ensures result == Success && batchLengths == [500, 500, 500, 300]
  {
    var firehose := new MockFirehose(RejectFrom(300));
    ThrottlingMocks(300);
    WriteChunkWithThrottling(batch, 3, AsCapability(RejectFrom(300)));
    result := WriteBatch(firehose, 3, batch);
    batchLengths := Sizes(firehose.calls);
  }

  /** The failing-call test, counting the calls the mock received. */
  method RunWriteError(batch: seq<Record>) returns (result: WriteResult, calls: nat)
    requires |batch| == 1
    ensures result == Failure(Transport(Message("blah"))) && calls == 3
  {
    var firehose := new MockFirehose(FailCall("blah"));
    WriteError(batch);
    result := WriteBatch(firehose, 2, batch);
    calls := |firehose.calls|;
  }

  /** The per-message throttling test, recording the size of every call. */
  method RunWriteMessageThrottling(batch: seq<Record>) returns (result: WriteResult, batchLengths: seq<nat>)
    requires |batch| == 3
    ensures result == Success && batchLengths == [3, 2, 1]
  {
    var firehose := new MockFirehose(AcceptFirstOnly);
    ThrottlingMocks(1);
    WriteMessageThrottling(batch, 2, AsCapability(AcceptFirstOnly));
    result := WriteBatch(firehose, 2, batch);
    batchLengths := Sizes(firehose.calls);
  }

  /** The exhausted-retries test, counting the calls the mock received. */
  method RunWriteBackoffMaxRetriesExceeded(batch: seq<Record>) returns (result: WriteResult, calls: nat)
    requires |batch| == 1
    ensures result == Failure(RetriesExhausted(1)) && calls == 3
  {
    var firehose := new MockFirehose(RejectOneEntry);
    WriteBackoffMaxRetriesExceeded(batch);
    result := WriteBatch(firehose, 2, batch);
    calls := |firehose.calls|;
  }
}
