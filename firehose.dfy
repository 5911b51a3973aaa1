/** Records, PutRecordBatch responses and the pending-queue operations of the
    Kinesis Firehose batch writer: taking a chunk from the head of the queue,
    classifying the records of a chunk from the response, and committing a
    response back into the queue. */
module Firehose {
  import opened Subsequences

  /** Largest number of records one PutRecordBatch call may carry
      (kinesisMaxRecordsCount). */
  const MaxRecordsCount: nat := 500

  datatype Option<T> = None | Some(value: T)

  /** An opaque message payload. */
  datatype Record = Record(data: seq<bv8>)

  /** Why a whole PutRecordBatch call failed; no record of the call was taken. */
  datatype PutError =
    | Message(text: string)                      // an error built from a fixed text
    | LengthMismatch(expected: nat, actual: nat) // "expected input to have records with length %d, got %d"

  /** What one PutRecordBatch call returns: a whole-call error, or an output whose
      i-th entry tells whether the i-th record of the call carries an error code.
      Records beyond the last entry carry none. */
  datatype Response =
    | PutFailed(error: PutError)
    | Output(failedPutCount: Option<nat>, entryFailed: seq<bool>)

  /** The error WriteBatch returns. */
  datatype WriteError =
    | Transport(error: PutError)   // the call's own error, verbatim
    | RetriesExhausted(failed: nat) // the number of records the last call left rejected

  datatype WriteResult = Success | Failure(error: WriteError)

  function Min(a: nat, b: nat): nat
  {
    if a <= b then a else b
  }

  /** The leading records of the queue that one call carries. */
  function Chunk(pending: seq<Record>): (chunk: seq<Record>)
    ensures chunk <= pending
    ensures |chunk| <= MaxRecordsCount
    ensures |chunk| == |pending| || |chunk| == MaxRecordsCount
  {
    pending[..Min(|pending|, MaxRecordsCount)]
  }

  /** The queue is its chunk followed by the records not yet tried. */
  lemma ChunkSplit(pending: seq<Record>)
    ensures pending == Chunk(pending) + pending[|Chunk(pending)|..]
  {
  }

  /** Whether the entry at position `i` carries an error code. */
  predicate IsRejected(entryFailed: seq<bool>, i: nat)
  {
    i < |entryFailed| && entryFailed[i]
  }

  /** The records of `chunk`, in order, whose rejection status is `rejected`. */
  function Select(chunk: seq<Record>, entryFailed: seq<bool>, rejected: bool): (r: seq<Record>)
    ensures |r| <= |chunk|
    decreases |chunk|
  {
    if chunk == [] then []
    else
      var r := Select(chunk[..|chunk| - 1], entryFailed, rejected);
      if IsRejected(entryFailed, |chunk| - 1) == rejected then r + [chunk[|chunk| - 1]] else r
  }

  /** The selected records keep the chunk's order. */
  lemma {:induction false} SelectIsSubseq(chunk: seq<Record>, entryFailed: seq<bool>, rejected: bool)
    ensures IsSubseq(Select(chunk, entryFailed, rejected), chunk)
    decreases |chunk|
  {
    if chunk != [] {
      var init := chunk[..|chunk| - 1];
      var last := chunk[|chunk| - 1];
      var r := Select(init, entryFailed, rejected);
      SelectIsSubseq(init, entryFailed, rejected);
      assert chunk == init + [last];
      if IsRejected(entryFailed, |chunk| - 1) == rejected {
        AppendBoth(r, init, [last]);
      } else {
        PrefixIsSubseq(init, [last]);
        SubseqTrans(r, init, chunk);
      }
    }
  }

  /** The records of the chunk the response rejected. */
  function Rejected(chunk: seq<Record>, entryFailed: seq<bool>): seq<Record>
  {
    Select(chunk, entryFailed, true)
  }

  /** The records of the chunk the response accepted. */
  function Accepted(chunk: seq<Record>, entryFailed: seq<bool>): seq<Record>
  {
    Select(chunk, entryFailed, false)
  }

  /** Appending a record extends exactly one side of the partition. */
  lemma {:induction false} SelectSnoc(chunk: seq<Record>, x: Record, entryFailed: seq<bool>, rejected: bool)
    ensures Select(chunk + [x], entryFailed, rejected)
         == Select(chunk, entryFailed, rejected) + (if IsRejected(entryFailed, |chunk|) == rejected then [x] else [])
  {
    assert (chunk + [x])[..|chunk|] == chunk;
  }

  /** Every record of a chunk is accepted or rejected, and not both. */
  lemma {:induction false} Partition(chunk: seq<Record>, entryFailed: seq<bool>)
    ensures multiset(chunk) == multiset(Accepted(chunk, entryFailed)) + multiset(Rejected(chunk, entryFailed))
    ensures |chunk| == |Accepted(chunk, entryFailed)| + |Rejected(chunk, entryFailed)|
    decreases |chunk|
  {
    if chunk != [] {
      var init := chunk[..|chunk| - 1];
      Partition(init, entryFailed);
      assert chunk == init + [chunk[|chunk| - 1]];
    }
  }

  /** The count part of the partition alone. */
  lemma PartitionSizes(chunk: seq<Record>, entryFailed: seq<bool>)
    ensures |chunk| == |Accepted(chunk, entryFailed)| + |Rejected(chunk, entryFailed)|
  {
    Partition(chunk, entryFailed);
  }

  /** When the entries reject exactly the positions from `first` on, the rejected
      records are the chunk from `first` on and the accepted ones are the rest. */
  lemma {:induction false} RejectedFrom(chunk: seq<Record>, entryFailed: seq<bool>, first: nat)
    requires forall i :: 0 <= i < |chunk| ==> (IsRejected(entryFailed, i) <==> first <= i)
    ensures Rejected(chunk, entryFailed) == chunk[Min(first, |chunk|)..]
    ensures Accepted(chunk, entryFailed) == chunk[..Min(first, |chunk|)]
    decreases |chunk|
  {
    if chunk != [] {
      var n := |chunk|;
      var init := chunk[..n - 1];
      RejectedFrom(init, entryFailed, first);
      assert chunk == init + [chunk[n - 1]];
      if first <= n - 1 {
        assert chunk[first..] == init[first..] + [chunk[n - 1]];
        assert chunk[..first] == init[..first];
      } else {
        assert init[n - 1..] == [] && chunk[n..] == [];
        assert chunk[..n] == chunk;
      }
    }
  }

  /** A chunk without rejected records is accepted entire. */
  lemma {:induction false} NoneRejected(chunk: seq<Record>, entryFailed: seq<bool>)
    requires Rejected(chunk, entryFailed) == []
    ensures Accepted(chunk, entryFailed) == chunk
    decreases |chunk|
  {
    if chunk != [] {
      var n := |chunk|;
      var init := chunk[..n - 1];
      assert Rejected(init, entryFailed) == [];
      NoneRejected(init, entryFailed);
      assert chunk == init + [chunk[n - 1]];
    }
  }

  /** The queue after a response: the records of the chunk the response rejected
      go back to the head, in their order, ahead of the records not yet tried;
      the accepted ones leave the queue. */
  function Commit(pending: seq<Record>, entryFailed: seq<bool>): (next: seq<Record>)
    ensures |next| == |pending| - |Accepted(Chunk(pending), entryFailed)|
  {
    var chunk := Chunk(pending);
    PartitionSizes(chunk, entryFailed);
    Rejected(chunk, entryFailed) + pending[|chunk|..]
  }

  /** Committing a response loses no record and keeps the queue's order: the
      queue is what was accepted plus what is pending next, the rejected records
      lead the next queue, and the next queue is a subsequence of the old one. */
  lemma CommitKeeps(pending: seq<Record>, entryFailed: seq<bool>)
    ensures var next := Commit(pending, entryFailed);
      && multiset(pending) == multiset(Accepted(Chunk(pending), entryFailed)) + multiset(next)
      && Rejected(Chunk(pending), entryFailed) <= next
      && IsSubseq(next, pending)
  {
    var chunk := Chunk(pending);
    var tail := pending[|chunk|..];
    Partition(chunk, entryFailed);
    assert pending == chunk + tail;
    SelectIsSubseq(chunk, entryFailed, true);
    AppendBoth(Rejected(chunk, entryFailed), chunk, tail);
  }

  /** The loop that gathers the rejected records of a call, entry by entry. */
  method CollectFailed(chunk: seq<Record>, entryFailed: seq<bool>) returns (failed: seq<Record>)
    ensures failed == Rejected(chunk, entryFailed)
  {
    failed := [];
    var i := 0;
    while i < |chunk|
      invariant 0 <= i <= |chunk|
      invariant failed == Rejected(chunk[..i], entryFailed)
    {
      SelectSnoc(chunk[..i], chunk[i], entryFailed, true);
      assert chunk[..i + 1] == chunk[..i] + [chunk[i]];
      if IsRejected(entryFailed, i) {
        failed := failed + [chunk[i]];
      }
      i := i + 1;
    }
    assert chunk[..i] == chunk;
  }
}
