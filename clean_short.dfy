/** s3_clean_short.py: the condensed variant. `insert` pairs vectors and metadata with
    `zip`, `query` prints every result, and neither catches any exception. */
module CleanShort {
  import opened Services
  import opened Ingestion

  /** `query`'s default top_k. */
  const ShortDefaultTopK: int := 3
  /** The pause between the insert and the query in the demo. */
  const ShortIndexingDelay: nat := 10

  const ShortTexts: seq<string> := ["The quick brown fox...", "Early bird catches the worm"]
  const ShortQueryText := "Who wakes up early?"

  function Min(a: nat, b: nat): nat
  {
    if a <= b then a else b
  }

  /** Python's `zip`: pairs up elements by position, stopping at the shorter input. */
  function Zip<A, B>(xs: seq<A>, ys: seq<B>): (r: seq<(A, B)>)
    ensures |r| == Min(|xs|, |ys|)
    ensures forall i :: 0 <= i < |r| ==> r[i] == (xs[i], ys[i])
  {
    if xs == [] || ys == [] then [] else [(xs[0], ys[0])] + Zip(xs[1..], ys[1..])
  }

  /** The records `insert` builds: one per (vector, metadata) pair of the zip, in order,
      the n-th with the n-th key handed out. */
  function ShortRecords(vectors: seq<seq<Float>>, metadatas: seq<Metadata>, keys: KeyStream): (r: seq<VectorRecord>)
    ensures |r| == Min(|vectors|, |metadatas|)
    ensures forall i :: 0 <= i < |r| ==> r[i] == VectorRecord(keys(i), Float32(vectors[i]), metadatas[i])
  {
    var pairs := Zip(vectors, metadatas);
    seq(|pairs|, i requires 0 <= i < |pairs| => VectorRecord(keys(i), Float32(pairs[i].0), pairs[i].1))
  }

  /** The two record builders agree: zip-based building is index-based building on the
      vectors that have a metadata partner, and the same records whenever every vector
      has one (where insert_vectors does not raise). */
  lemma ZipIsIndexingOnTruncated(vectors: seq<seq<Float>>, metadatas: seq<Metadata>, keys: KeyStream)
    ensures var n := Min(|vectors|, |metadatas|);
      ShortRecords(vectors, metadatas, keys) == Records(vectors[..n], metadatas, keys)
    ensures |vectors| <= |metadatas| ==> ShortRecords(vectors, metadatas, keys) == Records(vectors, metadatas, keys)
  {
    var n := Min(|vectors|, |metadatas|);
    assert ShortRecords(vectors, metadatas, keys) == Records(vectors[..n], metadatas, keys);
    if |vectors| <= |metadatas| {
      assert vectors[..n] == vectors;
    }
  }

  /** The records carry the vectors that had a partner, in order, and the metadata that
      had a partner, in order: zip drops the surplus of the longer list and nothing else. */
  lemma ShortRecordsGiveBackInputs(vectors: seq<seq<Float>>, metadatas: seq<Metadata>, keys: KeyStream)
    ensures var n := Min(|vectors|, |metadatas|);
      Payloads(ShortRecords(vectors, metadatas, keys)) == vectors[..n] &&
      MetadataOf(ShortRecords(vectors, metadatas, keys)) == metadatas[..n]
  {
    var n := Min(|vectors|, |metadatas|);
    ZipIsIndexingOnTruncated(vectors, metadatas, keys);
    RecordsGiveBackInputs(vectors[..n], metadatas, keys);
  }

  /** What `insert` does: its one put call and what it hands back. */
  datatype ShortInsert = ShortInsert(event: Event, result: Outcome<Response>)

  /** `insert`: one put_vectors call with all the zipped records; its reply is returned
      unchanged, and an exception from the service propagates to the caller. */
  function Insert(bucket: string, index: string, vectors: seq<seq<Float>>, metadatas: seq<Metadata>, keys: KeyStream, reply: Outcome<Response>): (r: ShortInsert)
    ensures r.event.Put? && r.event.bucket == bucket && r.event.index == index
    ensures |r.event.records| == Min(|vectors|, |metadatas|)
    ensures forall i :: 0 <= i < |r.event.records| ==>
      r.event.records[i] == VectorRecord(keys(i), Float32(vectors[i]), metadatas[i])
    ensures r.result == reply
  {
    ShortInsert(Put(bucket, index, ShortRecords(vectors, metadatas, keys)), reply)
  }

  /** One printed result: `r['metadata'].get('original_text')` and `r['distance']`. */
  datatype ShortLine = ShortLine(text: Option<string>, distance: Float)

  /** A result both `r['metadata']` and `r['distance']` can be read from. */
  predicate Printable(m: QueryMatch)
  {
    m.metadata.Some? && m.distance.Some?
  }

  /** `m['metadata'].get('original_text')`. */
  function OriginalText(metadata: Metadata): Option<string>
  {
    if "original_text" in metadata then Some(metadata["original_text"]) else None
  }

  /** The print loop of `query`: one line per result in the service's order, until a
      result without metadata or distance raises KeyError. Returns the lines printed and
      whether KeyError was raised. */
  function PrintResults(matches: seq<QueryMatch>): (r: (seq<ShortLine>, bool))
    ensures |r.0| <= |matches|
    ensures forall i :: 0 <= i < |r.0| ==>
      Printable(matches[i]) && r.0[i] == ShortLine(OriginalText(matches[i].metadata.value), matches[i].distance.value)
    ensures r.1 <==> exists i :: 0 <= i < |matches| && !Printable(matches[i])
    ensures r.1 ==> |r.0| < |matches| && !Printable(matches[|r.0|])
    ensures !r.1 ==> |r.0| == |matches|
  {
    if matches == [] then ([], false)
    else if !Printable(matches[0]) then ([], true)
    else
      var rest := PrintResults(matches[1..]);
      assert forall i :: 1 <= i < |matches| ==> matches[1..][i - 1] == matches[i];
      ([ShortLine(OriginalText(matches[0].metadata.value), matches[0].distance.value)] + rest.0, rest.1)
  }

  /** What `query` does: the query it sends, the lines it prints, and the exception that
      escapes it, if any. */
  datatype ShortQuery = ShortQuery(event: Event, lines: seq<ShortLine>, raised: Option<PyException>)

  /** `query`: one query with the given top_k, distances and metadata requested; a reply
      without 'vectors' prints nothing; a service exception or a KeyError propagates. */
  function QueryShort(bucket: string, index: string, vector: seq<Float>, topK: int, reply: Outcome<QueryResponse>): (r: ShortQuery)
    ensures r.event == Query(bucket, index, QueryRequest(Float32(vector), topK, true, true))
    ensures reply.Err? ==> r.lines == [] && r.raised == Some(ServiceException(reply.message))
    ensures reply.Ok? ==> (r.raised.None? <==> forall i :: 0 <= i < |reply.value.Matches()| ==> Printable(reply.value.Matches()[i]))
    ensures reply.Ok? && r.raised.None? ==> |r.lines| == |reply.value.Matches()|
    ensures reply.Ok? && reply.value.vectors.None? ==> r.lines == [] && r.raised.None?
    ensures reply.Ok? ==> (r.lines, r.raised == Some(KeyError)) == PrintResults(reply.value.Matches())
    ensures reply.Ok? ==> r.raised.None? || r.raised == Some(KeyError)
    ensures reply.Ok? ==> forall i :: 0 <= i < |r.lines| ==>
      r.lines[i] == ShortLine(OriginalText(reply.value.Matches()[i].metadata.value), reply.value.Matches()[i].distance.value)
  {
    var event := Query(bucket, index, QueryRequest(Float32(vector), topK, true, true));
    match reply
    case Err(message) => ShortQuery(event, [], Some(ServiceException(message)))
    case Ok(response) =>
      var (lines, keyError) := PrintResults(response.Matches());
      ShortQuery(event, lines, if keyError then Some(KeyError) else None)
  }

  /** The metadata the demo attaches: `{"original_text": t}` per text. */
  function ShortMetadata(texts: seq<string>): (r: seq<Metadata>)
    ensures |r| == |texts|
    ensures forall i :: 0 <= i < |texts| ==> r[i] == map["original_text" := texts[i]]
  {
    seq(|texts|, i requires 0 <= i < |texts| => map["original_text" := texts[i]])
  }

  /** The replies the services give to each call of the demo. */
  datatype ShortOracle = ShortOracle(
    embedTexts: Outcome<seq<seq<Float>>>,
    put: Outcome<Response>,
    embedQuery: Outcome<seq<seq<Float>>>,
    query: Outcome<QueryResponse>)

  /** The module-level demo: embed the texts, insert them with their text as metadata,
      wait, embed the query text and query. Every exception ends the script. */
  function ShortDemo(bucket: string, index: string, keys: KeyStream, o: ShortOracle): (r: Run)
    ensures 1 <= |r.trace| <= 5 && r.trace[0] == Embed(ShortTexts)
    ensures r.exit == Completed <==>
      o.embedTexts.Ok? && o.put.Ok? && o.embedQuery.Ok? && |o.embedQuery.value| > 0 && o.query.Ok? &&
      forall i :: 0 <= i < |o.query.value.Matches()| ==> Printable(o.query.value.Matches()[i])
  {
    var embedded := [Embed(ShortTexts)];
    match o.embedTexts
    case Err(message) => Run(embedded, Uncaught(ServiceException(message)))
    case Ok(vectors) =>
      var insert := Insert(bucket, index, vectors, ShortMetadata(ShortTexts), keys, o.put);
      var inserted := embedded + [insert.event];
      if insert.result.Err? then Run(inserted, Uncaught(ServiceException(insert.result.message)))
      else
        var waited := inserted + [Sleep(ShortIndexingDelay), Embed([ShortQueryText])];
        match o.embedQuery
        case Err(message) => Run(waited, Uncaught(ServiceException(message)))
        case Ok(queryVectors) =>
          if |queryVectors| == 0 then Run(waited, Uncaught(IndexError))
          else
            var q := QueryShort(bucket, index, queryVectors[0], ShortDefaultTopK, o.query);
            Run(waited + [q.event], if q.raised.Some? then Uncaught(q.raised.value) else Completed)
  }

  /** The demo inserts before it queries: its second action is the put of the texts'
      records, each carrying its own text as 'original_text', and a query happens only
      after that put returned, the 10-second pause and the query embedding. */
  lemma ShortDemoInsertsBeforeQuery(bucket: string, index: string, keys: KeyStream, o: ShortOracle)
    ensures var t := ShortDemo(bucket, index, keys, o).trace;
      |t| >= 1 && t[0] == Embed(ShortTexts) &&
      (|t| >= 2 ==>
         o.embedTexts.Ok? && t[1].Put? &&
         |t[1].records| == Min(|o.embedTexts.value|, |ShortTexts|) &&
         forall i :: 0 <= i < |t[1].records| ==> t[1].records[i].metadata == map["original_text" := ShortTexts[i]]) &&
      forall j :: 0 <= j < |t| && t[j].Query? ==>
        j == 4 && o.put.Ok? && t[2] == Sleep(ShortIndexingDelay) && t[3] == Embed([ShortQueryText]) &&
        t[j].request.topK == ShortDefaultTopK
  {
  }
}
