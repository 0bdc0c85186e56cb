/** insert_vectors of s3_bucket.py: build one record per vector, then make a single
    put_vectors call with the whole list. */
module Ingestion {
  import opened Services

  /** The records insert_vectors builds: record i holds the i-th key handed out, the
      i-th vector and the i-th metadata entry. */
  function Records(vectors: seq<seq<Float>>, metadataList: seq<Metadata>, keys: KeyStream): seq<VectorRecord>
    requires |vectors| <= |metadataList|
  {
    seq(|vectors|, i requires 0 <= i < |vectors| => VectorRecord(keys(i), Float32(vectors[i]), metadataList[i]))
  }

  /** The vectors a list of records carries, in order. */
  function Payloads(records: seq<VectorRecord>): seq<seq<Float>>
  {
    if records == [] then [] else [records[0].data.values] + Payloads(records[1..])
  }

  /** The metadata a list of records carries, in order. */
  function MetadataOf(records: seq<VectorRecord>): seq<Metadata>
  {
    if records == [] then [] else [records[0].metadata] + MetadataOf(records[1..])
  }

  /** Nothing is lost or reordered: the records give back exactly the vectors, and the
      metadata entries that were paired with them. */
  lemma {:induction false} RecordsGiveBackInputs(vectors: seq<seq<Float>>, metadataList: seq<Metadata>, keys: KeyStream)
    requires |vectors| <= |metadataList|
    ensures Payloads(Records(vectors, metadataList, keys)) == vectors
    ensures MetadataOf(Records(vectors, metadataList, keys)) == metadataList[..|vectors|]
  {
    var r := Records(vectors, metadataList, keys);
    if vectors != [] {
      var shifted: KeyStream := (n: nat) => keys(n + 1);
      RecordsGiveBackInputs(vectors[1..], metadataList[1..], shifted);
      assert r[1..] == Records(vectors[1..], metadataList[1..], shifted);
      assert metadataList[..|vectors|] == [metadataList[0]] + metadataList[1..][..|vectors| - 1];
    }
  }

  /** Distinct keys from the generator give records with pairwise distinct keys. */
  lemma RecordKeysDistinct(vectors: seq<seq<Float>>, metadataList: seq<Metadata>, keys: KeyStream)
    requires |vectors| <= |metadataList| && DistinctKeys(keys, |vectors|)
    ensures var r := Records(vectors, metadataList, keys);
      forall i, j :: 0 <= i < j < |r| ==> r[i].key != r[j].key
  {
  }

  /** What insert_vectors returns: the response, `None` after a service exception, or
      the IndexError raised while building when the metadata list is too short. */
  datatype InsertResult = Inserted(response: Response) | InsertNone | InsertIndexError
  {
    /** Python truthiness of the returned value, as main tests it. */
    predicate Truthy()
    {
      Inserted?
    }
  }

  /** insert_vectors' result and the remote calls it makes. */
  datatype InsertCall = InsertCall(result: InsertResult, events: seq<Event>)

  /** insert_vectors: a metadata list shorter than the vectors raises IndexError before
      any call; otherwise exactly one put of all records, whose failure yields `None` and
      whose success yields the response, whatever its HTTP status. */
  function InsertVectorsSpec(bucket: string, index: string, vectors: seq<seq<Float>>, metadataList: seq<Metadata>, keys: KeyStream, reply: Outcome<Response>): (r: InsertCall)
    ensures |vectors| > |metadataList| <==> r.result == InsertIndexError
    ensures |vectors| > |metadataList| ==> r.events == []
    ensures |vectors| <= |metadataList| ==>
      |r.events| == 1 && r.events[0].Put? &&
      r.events[0].bucket == bucket && r.events[0].index == index &&
      |r.events[0].records| == |vectors| &&
      forall i :: 0 <= i < |vectors| ==>
        r.events[0].records[i] == VectorRecord(keys(i), Float32(vectors[i]), metadataList[i])
    ensures r.result.Truthy() <==> |vectors| <= |metadataList| && reply.Ok?
    ensures r.result.Inserted? ==> r.result.response == reply.value
  {
    if |vectors| > |metadataList| then InsertCall(InsertIndexError, [])
    else
      var call := Put(bucket, index, Records(vectors, metadataList, keys));
      match reply
      case Ok(response) => InsertCall(Inserted(response), [call])
      case Err(_) => InsertCall(InsertNone, [call])
  }

  /** insert_vectors: the `for i, vec in enumerate(vectors)` loop that appends one
      record per vector, then the single put_vectors call. */
  method InsertVectors(bucket: string, index: string, vectors: seq<seq<Float>>, metadataList: seq<Metadata>, keys: KeyStream, reply: Outcome<Response>)
    returns (result: InsertResult, events: seq<Event>)
    ensures InsertCall(result, events) == InsertVectorsSpec(bucket, index, vectors, metadataList, keys, reply)
  {
    var toInsert: seq<VectorRecord> := [];
    var i := 0;
    while i < |vectors|
      invariant 0 <= i <= |vectors| && i <= |metadataList|
      invariant |toInsert| == i
      invariant forall k :: 0 <= k < i ==> toInsert[k] == VectorRecord(keys(k), Float32(vectors[k]), metadataList[k])
    {
      if i >= |metadataList| {
        return InsertIndexError, [];
      }
      toInsert := toInsert + [VectorRecord(keys(i), Float32(vectors[i]), metadataList[i])];
      i := i + 1;
    }
    assert toInsert == Records(vectors, metadataList, keys);
    events := [Put(bucket, index, toInsert)];
    match reply {
      case Ok(response) => result := Inserted(response);
      case Err(_) => result := InsertNone;
    }
  }
}
