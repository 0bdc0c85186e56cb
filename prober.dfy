/** test_index_with_simple_operation of s3_bucket.py and the bounded readiness loop
    of its main: probe the new index with a dummy query, retry while it is still
    building, and proceed in every other case. */
module Prober {
  import opened Text
  import opened Services

  /** The value every element of the dummy probe vector holds. */
  const ProbeValue: Float := 0.1
  /** max_retries in main. */
  const MaxRetries: nat := 3
  /** The pause between probe attempts, in seconds. */
  const RetryDelay: nat := 30

  /** The dummy query the probe sends: `[0.1] * VECTOR_DIMENSIONS` with top_k 1. */
  function ProbeRequest(): (q: QueryRequest)
    ensures |q.queryVector.values| == VectorDimensions
    ensures forall i :: 0 <= i < VectorDimensions ==> q.queryVector.values[i] == ProbeValue
    ensures q.topK == 1 && q.returnDistance && q.returnMetadata
  {
    QueryRequest(Float32(seq(VectorDimensions, _ => ProbeValue)), 1, true, true)
  }

  /** The probe's reading of an exception: the index is still being built. */
  predicate StillBuilding(message: string)
  {
    Contains(Lower(message), "not ready") || Contains(Lower(message), "building")
  }

  /** test_index_with_simple_operation: `True` (go on) when the query succeeds or fails
      for any reason other than the index still being built. */
  function TestIndexWithSimpleOperation(reply: Outcome<QueryResponse>): (ready: bool)
    ensures !ready <==> reply.Err? && StillBuilding(reply.message)
  {
    match reply
    case Ok(_) => true
    case Err(message) => !StillBuilding(message)
  }

  /** "Not ready" or "building" in any casing makes the probe ask for a retry. */
  lemma BuildingInAnyCaseRetries(message: string, w: string)
    requires Contains(message, w) && (Lower(w) == "not ready" || Lower(w) == "building")
    ensures !TestIndexWithSimpleOperation(Err(message))
  {
    LowerKeepsOccurrence(message, w);
  }

  /** A failure whose text is too short to hold either phrase is read as "proceed". */
  lemma ShortFailureProceeds(message: string)
    requires |message| < 8
    ensures TestIndexWithSimpleOperation(Err(message))
  {
    NotContainsLonger(Lower(message), "not ready");
    NotContainsLonger(Lower(message), "building");
  }

  /** The actions of the probing loop from attempt `attempt` on: a probe, then stop if
      it said ready, else a pause unless this was the last attempt, and go on. */
  function ProbeRounds(bucket: string, index: string, replies: nat -> Outcome<QueryResponse>, attempt: nat): (r: seq<Event>)
    requires attempt <= MaxRetries
    ensures |r| <= 2 * (MaxRetries - attempt)
    ensures attempt < MaxRetries ==> |r| >= 1 && r[0] == Probe(bucket, index, ProbeRequest())
    ensures forall e <- r :: e == Probe(bucket, index, ProbeRequest()) || e == Sleep(RetryDelay)
    decreases MaxRetries - attempt
  {
    if attempt == MaxRetries then []
    else
      [Probe(bucket, index, ProbeRequest())] +
      if TestIndexWithSimpleOperation(replies(attempt)) then []
      else (if attempt < MaxRetries - 1 then [Sleep(RetryDelay)] else []) + ProbeRounds(bucket, index, replies, attempt + 1)
  }

  /** The `for attempt in range(max_retries)` loop of main; `replies(n)` is the reply
      to the n-th probe. */
  method AwaitReadiness(bucket: string, index: string, replies: nat -> Outcome<QueryResponse>) returns (events: seq<Event>)
    ensures events == ProbeRounds(bucket, index, replies, 0)
  {
    events := [];
    var attempt := 0;
    while attempt < MaxRetries
      invariant 0 <= attempt <= MaxRetries
      invariant events + ProbeRounds(bucket, index, replies, attempt) == ProbeRounds(bucket, index, replies, 0)
    {
      ghost var before := events;
      events := events + [Probe(bucket, index, ProbeRequest())];
      if TestIndexWithSimpleOperation(replies(attempt)) {
        assert ProbeRounds(bucket, index, replies, attempt) == [Probe(bucket, index, ProbeRequest())];
        break;
      }
      if attempt < MaxRetries - 1 {
        events := events + [Sleep(RetryDelay)];
      }
      assert ProbeRounds(bucket, index, replies, attempt) ==
        events[|before|..] + ProbeRounds(bucket, index, replies, attempt + 1);
      assert events == before + events[|before|..];
      attempt := attempt + 1;
    }
  }

  /** The shape of the probing actions: probes and pauses alternate, starting and
      ending with a probe, with at most MaxRetries - attempt probes. */
  lemma {:induction false} ProbeRoundsAlternate(bucket: string, index: string, replies: nat -> Outcome<QueryResponse>, attempt: nat)
    requires attempt < MaxRetries
    ensures var t := ProbeRounds(bucket, index, replies, attempt);
      |t| % 2 == 1 && |t| <= 2 * (MaxRetries - attempt) - 1 &&
      forall k :: 0 <= k < |t| ==> t[k] == if k % 2 == 0 then Probe(bucket, index, ProbeRequest()) else Sleep(RetryDelay)
    decreases MaxRetries - attempt
  {
    var t := ProbeRounds(bucket, index, replies, attempt);
    if !TestIndexWithSimpleOperation(replies(attempt)) && attempt < MaxRetries - 1 {
      ProbeRoundsAlternate(bucket, index, replies, attempt + 1);
      var rest := ProbeRounds(bucket, index, replies, attempt + 1);
      assert t == [Probe(bucket, index, ProbeRequest()), Sleep(RetryDelay)] + rest;
      forall k | 2 <= k < |t|
        ensures t[k] == if k % 2 == 0 then Probe(bucket, index, ProbeRequest()) else Sleep(RetryDelay)
      {
        assert t[k] == rest[k - 2];
      }
    }
  }

  /** Probing stops at the first "ready": every probe before the last one reported
      "still building", and fewer than MaxRetries probes means the last one was ready.
      `(|t| + 1) / 2` is the number of probes. */
  lemma {:induction false} ProbeRoundsStopAtFirstReady(bucket: string, index: string, replies: nat -> Outcome<QueryResponse>, attempt: nat)
    requires attempt < MaxRetries
    ensures var n := (|ProbeRounds(bucket, index, replies, attempt)| + 1) / 2;
      1 <= n && attempt + n <= MaxRetries &&
      (forall j :: attempt <= j < attempt + n - 1 ==> !TestIndexWithSimpleOperation(replies(j))) &&
      (attempt + n < MaxRetries ==> TestIndexWithSimpleOperation(replies(attempt + n - 1)))
    decreases MaxRetries - attempt
  {
    ProbeRoundsAlternate(bucket, index, replies, attempt);
    if !TestIndexWithSimpleOperation(replies(attempt)) && attempt < MaxRetries - 1 {
      ProbeRoundsStopAtFirstReady(bucket, index, replies, attempt + 1);
    }
  }

  /** The whole loop: between one and MaxRetries probes, one fewer pauses, no pause
      after the final probe, and the loop always ends (it never fails the run). */
  lemma ReadinessLoopBounds(bucket: string, index: string, replies: nat -> Outcome<QueryResponse>)
    ensures var t := ProbeRounds(bucket, index, replies, 0);
      1 <= |t| <= 2 * MaxRetries - 1 &&
      t[|t| - 1] == Probe(bucket, index, ProbeRequest()) &&
      forall k :: 0 <= k < |t| ==> t[k] == if k % 2 == 0 then Probe(bucket, index, ProbeRequest()) else Sleep(RetryDelay)
  {
    ProbeRoundsAlternate(bucket, index, replies, 0);
  }

  /** A first "ready" within the bound is found without further probes: if attempts
      before `j` were still building and attempt `j` is ready, exactly j + 1 probes run. */
  lemma {:induction false} ReadyAfterBuilding(bucket: string, index: string, replies: nat -> Outcome<QueryResponse>, j: nat)
    requires j < MaxRetries
    requires forall k :: 0 <= k < j ==> !TestIndexWithSimpleOperation(replies(k))
    requires TestIndexWithSimpleOperation(replies(j))
    ensures |ProbeRounds(bucket, index, replies, 0)| == 2 * j + 1
  {
    ProbeRoundsStopAtFirstReady(bucket, index, replies, 0);
  }

  /** Still building at every attempt: three probes, two pauses, and the loop returns. */
  lemma NeverReadyStillReturns(bucket: string, index: string, replies: nat -> Outcome<QueryResponse>)
    requires forall k :: 0 <= k < MaxRetries ==> !TestIndexWithSimpleOperation(replies(k))
    ensures ProbeRounds(bucket, index, replies, 0) ==
      [Probe(bucket, index, ProbeRequest()), Sleep(RetryDelay), Probe(bucket, index, ProbeRequest()),
       Sleep(RetryDelay), Probe(bucket, index, ProbeRequest())]
  {
    assert !TestIndexWithSimpleOperation(replies(0));
    assert !TestIndexWithSimpleOperation(replies(1));
    assert !TestIndexWithSimpleOperation(replies(2));
  }
}
