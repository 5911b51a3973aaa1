/** The delivery loop of WriteBatch as a specification function, and what it
    guarantees: no record is dropped without an error, records keep their order,
    calls are bounded chunks, and the retry budget is spent exactly on the
    imperfect attempts. */
module Delivery {
  import opened Subsequences
  import opened Firehose

  /** One PutRecordBatch call: from the records of the call to its response. */
  type Capability = seq<Record> -> Response

  /** What one WriteBatch call does: the records of each PutRecordBatch call in
      order, the records confirmed in the order they were confirmed, the records
      still pending when it returned, and its result. */
  datatype Run = Run(calls: seq<seq<Record>>, accepted: seq<Record>, unsent: seq<Record>, result: WriteResult)

  /** A run that starts with one call that confirmed `accepted`. */
  function After(chunk: seq<Record>, accepted: seq<Record>, rest: Run): Run
  {
    rest.(calls := [chunk] + rest.calls, accepted := accepted + rest.accepted)
  }

  /** An attempt is imperfect when the call failed or rejected some record. */
  predicate Imperfect(chunk: seq<Record>, response: Response)
  {
    response.PutFailed? || Rejected(chunk, response.entryFailed) != []
  }

  /** The loop, from a pending queue and the retries still available. It calls
      the capability exactly when records are pending, each attempt carries the
      queue's chunk, and the write succeeds exactly when nothing is left
      pending. */
  function Deliver(pending: seq<Record>, retries: nat, put: Capability): (r: Run)
    ensures r.calls == [] <==> pending == []
    ensures pending != [] ==> r.calls[0] == Chunk(pending)
    ensures r.result == Success <==> r.unsent == []
    decreases retries, |pending|
  {
    if pending == [] then Run([], [], [], Success)
    else
      var chunk := Chunk(pending);
      match put(chunk)
      case PutFailed(e) =>
        if retries == 0 then Run([chunk], [], pending, Failure(Transport(e)))
        else After(chunk, [], Deliver(pending, retries - 1, put))
      case Output(_, entryFailed) =>
        var failed := Rejected(chunk, entryFailed);
        var next := Commit(pending, entryFailed);
        PartitionSizes(chunk, entryFailed);
        if failed == [] then After(chunk, Accepted(chunk, entryFailed), Deliver(next, retries, put))
        else if retries == 0 then Run([chunk], Accepted(chunk, entryFailed), next, Failure(RetriesExhausted(|failed|)))
        else After(chunk, Accepted(chunk, entryFailed), Deliver(next, retries - 1, put))
  }

  /** Moving a call from the calls to come to the calls made leaves the whole
      sequence of calls as it was. */
  lemma Assoc<T>(a: seq<T>, b: seq<T>, c: seq<T>)
    ensures (a + b) + c == a + (b + c)
  {
  }

  /** The loop after a call that failed as a whole. */
  lemma FailedCallStep(pending: seq<Record>, retries: nat, put: Capability)
    requires pending != [] && put(Chunk(pending)).PutFailed?
    ensures Deliver(pending, retries, put)
         == if retries == 0 then Run([Chunk(pending)], [], pending, Failure(Transport(put(Chunk(pending)).error)))
            else After(Chunk(pending), [], Deliver(pending, retries - 1, put))
  {
  }

  /** The loop after a call answered with an output. */
  lemma OutputStep(pending: seq<Record>, retries: nat, put: Capability)
    requires pending != [] && put(Chunk(pending)).Output?
    ensures var chunk := Chunk(pending);
      var entryFailed := put(chunk).entryFailed;
      var failed := Rejected(chunk, entryFailed);
      var next := Commit(pending, entryFailed);
      Deliver(pending, retries, put)
        == if failed == [] then After(chunk, Accepted(chunk, entryFailed), Deliver(next, retries, put))
           else if retries == 0 then Run([chunk], Accepted(chunk, entryFailed), next, Failure(RetriesExhausted(|failed|)))
           else After(chunk, Accepted(chunk, entryFailed), Deliver(next, retries - 1, put))
  {
  }

  /** Every record of the batch is either confirmed or still pending at the end;
      what is pending keeps the batch's order; pending is empty exactly on success. */
  lemma {:induction false} Conservation(pending: seq<Record>, retries: nat, put: Capability)
    ensures var r := Deliver(pending, retries, put);
      && multiset(pending) == multiset(r.accepted) + multiset(r.unsent)
      && IsSubseq(r.unsent, pending)
      && (r.result == Success <==> r.unsent == [])
    decreases retries, |pending|, 1
  {
    if pending == [] {
      SubseqRefl(pending);
    } else if put(Chunk(pending)).PutFailed? {
      FailedCallStep(pending, retries, put);
      if retries == 0 {
        SubseqRefl(pending);
      } else {
        Conservation(pending, retries - 1, put);
      }
    } else {
      CommittedConservation(pending, retries, put);
    }
  }

  /** Conservation across an attempt the capability answered with an output. */
  lemma {:induction false} CommittedConservation(pending: seq<Record>, retries: nat, put: Capability)
    requires pending != [] && put(Chunk(pending)).Output?
    ensures var r := Deliver(pending, retries, put);
      && multiset(pending) == multiset(r.accepted) + multiset(r.unsent)
      && IsSubseq(r.unsent, pending)
      && (r.result == Success <==> r.unsent == [])
    decreases retries, |pending|, 0
  {
    var chunk := Chunk(pending);
    var entryFailed := put(chunk).entryFailed;
    var next := Commit(pending, entryFailed);
    var accepted := Accepted(chunk, entryFailed);
    CommitKeeps(pending, entryFailed);
    PartitionSizes(chunk, entryFailed);
    OutputStep(pending, retries, put);
    if Rejected(chunk, entryFailed) == [] || retries > 0 {
      var retries' := if Rejected(chunk, entryFailed) == [] then retries else retries - 1;
      var rest := Deliver(next, retries', put);
      Conservation(next, retries', put);
      assert multiset(accepted + rest.accepted) == multiset(accepted) + multiset(rest.accepted);
      SubseqTrans(rest.unsent, next, pending);
    }
  }

  /** The records the capability's answers confirmed, call by call: for a call
      answered with an output, the records of the call its entries accept; for
      a call that failed as a whole, none. */
  function Confirmed(calls: seq<seq<Record>>, put: Capability): seq<Record>
  {
    if calls == [] then []
    else
      var answered := match put(calls[0])
        case PutFailed(_) => []
        case Output(_, entryFailed) => Accepted(calls[0], entryFailed);
      answered + Confirmed(calls[1..], put)
  }

  /** The records the loop books as accepted are exactly those the answers to
      its calls confirmed, in the order they were confirmed. */
  lemma {:induction false} AcceptedIsConfirmed(pending: seq<Record>, retries: nat, put: Capability)
    ensures var r := Deliver(pending, retries, put);
      r.accepted == Confirmed(r.calls, put)
    decreases retries, |pending|
  {
    if pending != [] {
      var chunk := Chunk(pending);
      if put(chunk).PutFailed? {
        FailedCallStep(pending, retries, put);
        if retries > 0 {
          var rest := Deliver(pending, retries - 1, put);
          AcceptedIsConfirmed(pending, retries - 1, put);
          assert ([chunk] + rest.calls)[1..] == rest.calls;
        } else {
          assert [chunk][1..] == [];
        }
      } else {
        var entryFailed := put(chunk).entryFailed;
        var next := Commit(pending, entryFailed);
        OutputStep(pending, retries, put);
        PartitionSizes(chunk, entryFailed);
        if Rejected(chunk, entryFailed) == [] || retries > 0 {
          var retries' := if Rejected(chunk, entryFailed) == [] then retries else retries - 1;
          var rest := Deliver(next, retries', put);
          AcceptedIsConfirmed(next, retries', put);
          assert ([chunk] + rest.calls)[1..] == rest.calls;
        } else {
          assert [chunk][1..] == [];
          assert Accepted(chunk, entryFailed) + [] == Accepted(chunk, entryFailed);
        }
      }
    }
  }

  /** No silent drop: WriteBatch succeeds exactly when every record of the batch
      was confirmed by the answers to its calls. */
  lemma NoSilentDrop(batch: seq<Record>, retries: nat, put: Capability)
    ensures var r := Deliver(batch, retries, put);
      r.result == Success <==> multiset(Confirmed(r.calls, put)) == multiset(batch)
  {
    var r := Deliver(batch, retries, put);
    Conservation(batch, retries, put);
    AcceptedIsConfirmed(batch, retries, put);
    if multiset(r.accepted) == multiset(batch) {
      assert |multiset(r.unsent)| == 0;
    }
  }

  /** Every call carries between 1 and MaxRecordsCount records of `batch`, in
      the batch's order. */
  ghost predicate BoundedChunksOf(calls: seq<seq<Record>>, batch: seq<Record>)
  {
    forall i :: 0 <= i < |calls| ==> 0 < |calls[i]| <= MaxRecordsCount && IsSubseq(calls[i], batch)
  }

  /** A bounded chunk of the queue followed by bounded chunks of a subsequence
      of the queue are bounded chunks of the queue. */
  lemma BoundedChunksCons(chunk: seq<Record>, calls: seq<seq<Record>>, next: seq<Record>, pending: seq<Record>)
    requires 0 < |chunk| <= MaxRecordsCount && IsSubseq(chunk, pending)
    requires BoundedChunksOf(calls, next) && IsSubseq(next, pending)
    ensures BoundedChunksOf([chunk] + calls, pending)
  {
    forall i | 0 <= i < |calls|
      ensures IsSubseq(calls[i], pending)
    {
      SubseqTrans(calls[i], next, pending);
    }
  }

  /** There is a call exactly when the batch is non-empty, and the calls are
      bounded chunks of the batch. */
  lemma {:induction false} CallsAreBoundedChunks(pending: seq<Record>, retries: nat, put: Capability)
    ensures var r := Deliver(pending, retries, put);
      && (r.calls == [] <==> pending == [])
      && BoundedChunksOf(r.calls, pending)
    decreases retries, |pending|
  {
    if pending != [] {
      var chunk := Chunk(pending);
      ChunkSplit(pending);
      PrefixIsSubseq(chunk, pending[|chunk|..]);
      if put(chunk).PutFailed? {
        FailedCallStep(pending, retries, put);
        if retries > 0 {
          CallsAreBoundedChunks(pending, retries - 1, put);
          SubseqRefl(pending);
          BoundedChunksCons(chunk, Deliver(pending, retries - 1, put).calls, pending, pending);
        }
      } else {
        var entryFailed := put(chunk).entryFailed;
        var next := Commit(pending, entryFailed);
        OutputStep(pending, retries, put);
        if Rejected(chunk, entryFailed) == [] || retries > 0 {
          var retries' := if Rejected(chunk, entryFailed) == [] then retries else retries - 1;
          CommitKeeps(pending, entryFailed);
          CallsAreBoundedChunks(next, retries', put);
          BoundedChunksCons(chunk, Deliver(next, retries', put).calls, next, pending);
        }
      }
    }
  }

  /** How many of the calls were imperfect attempts. */
  function ImperfectCount(calls: seq<seq<Record>>, put: Capability): nat
  {
    if calls == [] then 0
    else (if Imperfect(calls[0], put(calls[0])) then 1 else 0) + ImperfectCount(calls[1..], put)
  }

  /** The budget is spent on imperfect attempts only: WriteBatch fails after
      exactly retries + 1 of them, and succeeds after at most retries. */
  lemma {:induction false} RetryAccounting(pending: seq<Record>, retries: nat, put: Capability)
    ensures var r := Deliver(pending, retries, put);
      && (r.result.Failure? ==> ImperfectCount(r.calls, put) == retries + 1)
      && (r.result == Success ==> ImperfectCount(r.calls, put) <= retries)
    decreases retries, |pending|
  {
    if pending != [] {
      var chunk := Chunk(pending);
      match put(chunk)
      case PutFailed(e) =>
        if retries > 0 {
          RetryAccounting(pending, retries - 1, put);
          assert ([chunk] + Deliver(pending, retries - 1, put).calls)[1..] == Deliver(pending, retries - 1, put).calls;
        }
      case Output(_, entryFailed) =>
        var next := Commit(pending, entryFailed);
        PartitionSizes(chunk, entryFailed);
        var retries' := if Rejected(chunk, entryFailed) == [] then retries else retries - 1;
        if Rejected(chunk, entryFailed) == [] || retries > 0 {
          RetryAccounting(next, retries', put);
          assert ([chunk] + Deliver(next, retries', put).calls)[1..] == Deliver(next, retries', put).calls;
        }
    }
  }

  /** A failed WriteBatch returns what its last call answered: that call's own
      error verbatim, or the number of records that call rejected. */
  lemma {:induction false} FailureComesFromLastCall(pending: seq<Record>, retries: nat, put: Capability)
    ensures var r := Deliver(pending, retries, put);
      r.result.Failure? ==>
        && r.calls != []
        && var last := r.calls[|r.calls| - 1];
           match r.result.error
           case Transport(e) => put(last) == PutFailed(e)
           case RetriesExhausted(n) =>
             put(last).Output? && n == |Rejected(last, put(last).entryFailed)| && n > 0
    decreases retries, |pending|
  {
    if pending != [] {
      var chunk := Chunk(pending);
      match put(chunk)
      case PutFailed(e) =>
        if retries > 0 {
          FailureComesFromLastCall(pending, retries - 1, put);
        }
      case Output(_, entryFailed) =>
        var next := Commit(pending, entryFailed);
        PartitionSizes(chunk, entryFailed);
        var retries' := if Rejected(chunk, entryFailed) == [] then retries else retries - 1;
        if Rejected(chunk, entryFailed) == [] || retries > 0 {
          FailureComesFromLastCall(next, retries', put);
        }
    }
  }

  /** The records of all calls, in call order. */
  function Flatten(calls: seq<seq<Record>>): seq<Record>
  {
    if calls == [] then [] else calls[0] + Flatten(calls[1..])
  }

  /** The number of records of each call. */
  function Sizes(calls: seq<seq<Record>>): (sizes: seq<nat>)
    ensures |sizes| == |calls|
    ensures forall i :: 0 <= i < |calls| ==> sizes[i] == |calls[i]|
  {
    seq(|calls|, i requires 0 <= i < |calls| => |calls[i]|)
  }

  /** The total of a sequence of sizes. */
  function Total(sizes: seq<nat>): nat
  {
    if sizes == [] then 0 else sizes[0] + Total(sizes[1..])
  }

  /** The call sizes that split `n` records into full chunks and one last,
      possibly shorter, chunk: every size is between 1 and MaxRecordsCount,
      every size but the last is MaxRecordsCount, and the sizes add up to `n`. */
  function ChunkSizes(n: nat): (sizes: seq<nat>)
    ensures forall i :: 0 <= i < |sizes| ==> 0 < sizes[i] <= MaxRecordsCount
    ensures forall i :: 0 <= i < |sizes| - 1 ==> sizes[i] == MaxRecordsCount
    ensures Total(sizes) == n
    decreases n
  {
    if n == 0 then []
    else if n <= MaxRecordsCount then [n]
    else [MaxRecordsCount] + ChunkSizes(n - MaxRecordsCount)
  }

  /** The first size is that of the queue's chunk. */
  lemma ChunkSizesStep(pending: seq<Record>)
    requires pending != []
    ensures ChunkSizes(|pending|) == [|Chunk(pending)|] + ChunkSizes(|pending| - |Chunk(pending)|)
  {
  }

  /** Splitting `n` records takes ceil(n / MaxRecordsCount) calls. */
  lemma {:induction false} ChunkCount(n: nat)
    ensures |ChunkSizes(n)| == (n + MaxRecordsCount - 1) / MaxRecordsCount
    decreases n
  {
    if n > MaxRecordsCount {
      ChunkCount(n - MaxRecordsCount);
    }
  }

  /** Against a capability that accepts every record of every call, the batch
      goes out in consecutive chunks of MaxRecordsCount records, the last one
      shorter, ceil(n / MaxRecordsCount) calls in all, and the write succeeds. */
  lemma {:induction false} AlwaysAccepting(pending: seq<Record>, retries: nat, put: Capability)
    requires forall c :: !Imperfect(c, put(c))
    ensures var r := Deliver(pending, retries, put);
      && r.result == Success
      && Flatten(r.calls) == pending
      && Sizes(r.calls) == ChunkSizes(|pending|)
      && |r.calls| == (|pending| + MaxRecordsCount - 1) / MaxRecordsCount
      && r.accepted == pending
    decreases |pending|
  {
    ChunkCount(|pending|);
    if pending != [] {
      var chunk := Chunk(pending);
      var next := pending[|chunk|..];
      AcceptedStep(pending, retries, put);
      AlwaysAccepting(next, retries, put);
      var rest := Deliver(next, retries, put);
      var r := Deliver(pending, retries, put);
      SizesFirst(chunk, rest.calls);
      assert Flatten(r.calls) == chunk + Flatten(rest.calls) by {
        assert r.calls[1..] == rest.calls;
      }
      ChunkSplit(pending);
      ChunkSizesStep(pending);
    }
  }

  /** An attempt whose call is accepted entire takes the chunk off the queue. */
  lemma AcceptedStep(pending: seq<Record>, retries: nat, put: Capability)
    requires pending != [] && !Imperfect(Chunk(pending), put(Chunk(pending)))
    ensures Deliver(pending, retries, put)
         == After(Chunk(pending), Chunk(pending), Deliver(pending[|Chunk(pending)|..], retries, put))
  {
    var chunk := Chunk(pending);
    var entryFailed := put(chunk).entryFailed;
    NoneRejected(chunk, entryFailed);
    assert Commit(pending, entryFailed) == pending[|chunk|..];
  }

  lemma SizesFirst(chunk: seq<Record>, calls: seq<seq<Record>>)
    ensures Sizes([chunk] + calls) == [|chunk|] + Sizes(calls)
  {
  }

  /** `n` copies of one chunk. */
  function Repeat(chunk: seq<Record>, n: nat): (r: seq<seq<Record>>)
    ensures |r| == n
    ensures forall i :: 0 <= i < n ==> r[i] == chunk
  {
    seq(n, _ => chunk)
  }

  /** Against a capability whose every call fails, WriteBatch makes retries + 1
      identical calls and returns that call's error verbatim. */
  lemma {:induction false} AlwaysFailingCall(pending: seq<Record>, retries: nat, put: Capability, e: PutError)
    requires pending != []
    requires put(Chunk(pending)) == PutFailed(e)
    ensures var r := Deliver(pending, retries, put);
      && r.calls == Repeat(Chunk(pending), retries + 1)
      && r.result == Failure(Transport(e))
      && r.accepted == [] && r.unsent == pending
    decreases retries
  {
    if retries > 0 {
      AlwaysFailingCall(pending, retries - 1, put, e);
      assert Repeat(Chunk(pending), retries + 1) == [Chunk(pending)] + Repeat(Chunk(pending), retries);
    }
  }

  /** Against a capability that rejects every record of the call, the queue never
      changes: WriteBatch makes retries + 1 identical calls and fails, naming the
      number of records rejected. */
  lemma {:induction false} AlwaysRejectingAll(pending: seq<Record>, retries: nat, put: Capability)
    requires pending != []
    requires put(Chunk(pending)).Output?
    requires forall i :: 0 <= i < |Chunk(pending)| ==> IsRejected(put(Chunk(pending)).entryFailed, i)
    ensures var r := Deliver(pending, retries, put);
      && r.calls == Repeat(Chunk(pending), retries + 1)
      && r.result == Failure(RetriesExhausted(|Chunk(pending)|))
      && r.accepted == [] && r.unsent == pending
    decreases retries
  {
    var chunk := Chunk(pending);
    var entryFailed := put(chunk).entryFailed;
    RejectedFrom(chunk, entryFailed, 0);
    assert chunk[0..] == chunk && chunk[..0] == [];
    assert pending == chunk + pending[|chunk|..];
    assert Commit(pending, entryFailed) == pending;
    if retries > 0 {
      AlwaysRejectingAll(pending, retries - 1, put);
      assert Repeat(chunk, retries + 1) == [chunk] + Repeat(chunk, retries);
    }
  }

  /** A response that rejects exactly the positions from `first` on of a call
      of `n` records. */
  ghost predicate RejectsFrom(response: Response, n: nat, first: nat)
  {
    response.Output? && forall i :: 0 <= i < n ==> (IsRejected(response.entryFailed, i) <==> first <= i)
  }

  /** One attempt of a full chunk whose records from position `first` on are
      rejected: those records go back ahead of the untried tail, so the queue
      that follows is exactly the pending queue from `first` on. */
  lemma ThrottledStep(pending: seq<Record>, retries: nat, put: Capability, first: nat)
    requires 0 < first < |Chunk(pending)| && retries > 0
    requires RejectsFrom(put(Chunk(pending)), |Chunk(pending)|, first)
    ensures Deliver(pending, retries, put)
         == After(Chunk(pending), pending[..first], Deliver(pending[first..], retries - 1, put))
  {
    var chunk := Chunk(pending);
    var entryFailed := put(chunk).entryFailed;
    OutputStep(pending, retries, put);
    RejectedFrom(chunk, entryFailed, first);
    assert chunk[first..] + pending[|chunk|..] == pending[first..];
    assert chunk[..first] == pending[..first];
  }

  /** The same attempt with no retry left: the write fails, naming the records
      of the chunk from `first` on. */
  lemma ThrottledLastAttempt(pending: seq<Record>, put: Capability, first: nat)
    requires 0 < first < |Chunk(pending)|
    requires RejectsFrom(put(Chunk(pending)), |Chunk(pending)|, first)
    ensures Deliver(pending, 0, put)
         == Run([Chunk(pending)], pending[..first], pending[first..], Failure(RetriesExhausted(|Chunk(pending)| - first)))
  {
    var chunk := Chunk(pending);
    var entryFailed := put(chunk).entryFailed;
    OutputStep(pending, 0, put);
    RejectedFrom(chunk, entryFailed, first);
    assert chunk[first..] + pending[|chunk|..] == pending[first..];
    assert chunk[..first] == pending[..first];
  }
}
