/** The deterministic PutRecordBatch stand-ins the writer's tests drive it with.
    Each answers from the records of the call alone; the object records every
    call it receives, as the tests capture lengths, counts and records. */
module Mocks {
  import opened Firehose
  import Delivery

  /** The answering behaviours of the tests' mocks. */
  datatype Behaviour =
    | ExpectLength(n: nat)    // fail the call unless it carries exactly n records, else accept all
    | AcceptAll               // an empty output: no entries, no failed count
    | RejectFrom(first: nat)  // reject every position from `first` on
    | FailCall(text: string)  // fail every call with the same error
    | AcceptFirstOnly         // reject every position but the first
    | RejectOneEntry          // one entry with an error code, failed count 1

  /** How many of `count` positions lie at or after `first`. */
  function Excess(count: nat, first: nat): nat
  {
    if count > first then count - first else 0
  }

  /** Whether a mock means to flag position `i` of a call as rejected. */
  predicate FlagsPosition(b: Behaviour, i: nat)
  {
    match b
    case RejectFrom(first) => first <= i
    case AcceptFirstOnly => 0 < i
    case RejectOneEntry => i == 0
    case _ => false
  }

  /** The response of a mock to the records of one call: a whole-call failure
      only from the failing mock or on a length mismatch, carrying the mock's
      error; otherwise each position of the call flagged exactly as the mock
      means to. */
  function Respond(b: Behaviour, records: seq<Record>): (r: Response)
    ensures r.PutFailed? <==> b.FailCall? || (b.ExpectLength? && |records| != b.n)
    ensures b.FailCall? ==> r.error == Message(b.text)
    ensures b.ExpectLength? && r.PutFailed? ==> r.error == LengthMismatch(b.n, |records|)
    ensures r.Output? ==> forall i :: 0 <= i < |records| ==> (IsRejected(r.entryFailed, i) <==> FlagsPosition(b, i))
  {
    match b
    case ExpectLength(n) =>
      if |records| != n then PutFailed(LengthMismatch(n, |records|)) else Output(None, [])
    case AcceptAll => Output(None, [])
    case RejectFrom(first) => Output(Some(Excess(|records|, first)), seq(|records|, i => i >= first))
    case FailCall(text) => PutFailed(Message(text))
    case AcceptFirstOnly => Output(Some(Excess(|records|, 1)), seq(|records|, i => i > 0))
    case RejectOneEntry => Output(Some(1), [true])
  }

  /** A mock as the capability the delivery loop calls. */
  function AsCapability(b: Behaviour): Delivery.Capability
  {
    records => Respond(b, records)
  }

  /** The records of a call each mock means to reject. */
  function MeantRejected(b: Behaviour, records: seq<Record>): seq<Record>
  {
    match b
    case RejectFrom(first) => records[Min(first, |records|)..]
    case AcceptFirstOnly => records[Min(1, |records|)..]
    case RejectOneEntry => records[..Min(1, |records|)]
    case _ => []
  }

  /** Only the first record of a call is flagged by a single failing entry. */
  lemma {:induction false} SingleEntryRejectsFirst(records: seq<Record>)
    requires records != []
    ensures Rejected(records, [true]) == records[..1]
    decreases |records|
  {
    if |records| > 1 {
      var init := records[..|records| - 1];
      SingleEntryRejectsFirst(init);
      assert init[..1] == records[..1];
    } else {
      RejectedFrom(records, [true], 0);
      assert records[0..] == records[..1];
    }
  }

  /** What each mock does to the records of a non-empty call: whether it fails
      the whole call, which records it rejects otherwise, and that a failed
      count it reports is the number it rejects. */
  lemma MockOutcomes(b: Behaviour, records: seq<Record>)
    requires records != []
    ensures var resp := Respond(b, records);
      && (resp.PutFailed? <==> (b.FailCall? || (b.ExpectLength? && |records| != b.n)))
      && (resp.Output? ==>
            && Rejected(records, resp.entryFailed) == MeantRejected(b, records)
            && (resp.failedPutCount.Some? ==>
                  resp.failedPutCount.value == |Rejected(records, resp.entryFailed)|))
  {
    var resp := Respond(b, records);
    match b
    case RejectFrom(first) =>
      RejectedFrom(records, resp.entryFailed, first);
    case AcceptFirstOnly =>
      RejectedFrom(records, resp.entryFailed, 1);
    case RejectOneEntry =>
      SingleEntryRejectsFirst(records);
    case ExpectLength(n) =>
      if |records| == n {
        RejectedFrom(records, [], |records|);
        assert records[|records|..] == [];
      }
    case AcceptAll =>
      RejectedFrom(records, [], |records|);
      assert records[|records|..] == [];
    case FailCall(_) =>
  }

  /** The loop both throttling mocks build their output with: one entry per
      record, an error code on every position from `first` on, and the number
      of such entries as the failed count. */
  method ThrottledOutput(count: nat, first: nat) returns (resp: Response)
    ensures resp.Output? && |resp.entryFailed| == count
    ensures forall i :: 0 <= i < count ==> (resp.entryFailed[i] <==> first <= i)
    ensures resp.failedPutCount == Some(Excess(count, first))
  {
    var failed: nat := 0;
    var entries: seq<bool> := [];
    var i := 0;
    while i < count
      invariant 0 <= i <= count
      invariant |entries| == i
      invariant forall j :: 0 <= j < i ==> (entries[j] <==> first <= j)
      invariant failed == Excess(i, first)
    {
      if i >= first {
        failed := failed + 1;
        entries := entries + [true];
      } else {
        entries := entries + [false];
      }
      i := i + 1;
    }
    resp := Output(Some(failed), entries);
  }

  /** A mock Firehose client: answers by its behaviour and records every call. */
  class MockFirehose {
    const behaviour: Behaviour
    /** The records of every call received, in order. */
    var calls: seq<seq<Record>>

    constructor (behaviour: Behaviour)
      ensures this.behaviour == behaviour && calls == []
    {
      this.behaviour := behaviour;
      calls := [];
    }

    method PutRecordBatch(records: seq<Record>) returns (resp: Response)
      modifies this
      ensures calls == old(calls) + [records]
      ensures resp == Respond(behaviour, records)
    {
      calls := calls + [records];
      match behaviour
      case RejectFrom(first) =>
        resp := ThrottledOutput(|records|, first);
        assert resp.entryFailed == seq(|records|, i => i >= first);
      case AcceptFirstOnly =>
        resp := ThrottledOutput(|records|, 1);
        assert resp.entryFailed == seq(|records|, i => i > 0);
      case _ =>
        resp := Respond(behaviour, records);
    }
  }
}
