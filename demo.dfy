/** main of s3_bucket.py: provision, wait, probe, embed and insert the sample texts,
    and query only after a successful insert. */
module Demo {
  import opened Services
  import opened Provisioner
  import opened Prober
  import opened Ingestion
  import opened Query

  /** The pause after provisioning, before the first probe. */
  const InitialDelay: nat := 30
  /** The pause after a successful insert, before the query. */
  const IndexingDelay: nat := 15

  const SampleTexts: seq<string> := [
    "The quick brown fox jumps over the lazy dog.",
    "A journey of a thousand miles begins with a single step.",
    "To be or not to be, that is the question.",
    "All that glitters is not gold.",
    "The early bird catches the worm."
  ]
  const QueryText := "What is the opposite of a late riser?"

  /** The replies the two services give to each call main makes. */
  datatype Oracle = Oracle(
    createBucket: Outcome<Response>,
    createIndex: Outcome<Response>,
    probe: nat -> Outcome<QueryResponse>,
    embedSamples: Outcome<seq<seq<Float>>>,
    put: Outcome<Response>,
    embedQuery: Outcome<seq<seq<Float>>>,
    query: Outcome<QueryResponse>)

  /** The metadata main attaches: `{"original_text": text, "source": "demo"}` per text. */
  function SampleMetadata(texts: seq<string>): (r: seq<Metadata>)
    ensures |r| == |texts|
    ensures forall i :: 0 <= i < |texts| ==> r[i] == map["original_text" := texts[i], "source" := "demo"]
  {
    seq(|texts|, i requires 0 <= i < |texts| => map["original_text" := texts[i], "source" := "demo"])
  }

  /** What main does once the index has been probed: list, embed the samples, insert
      them, and query if the insert returned something truthy. Uncaught exceptions
      from the embedding client and from indexing end the run. */
  function AfterProbing(bucket: string, index: string, keys: KeyStream, o: Oracle): (r: Run)
    ensures 3 <= |r.trace| <= 7
    ensures r.trace[..3] == [ListBuckets, ListIndexes(bucket), Embed(SampleTexts)]
    ensures r.exit == Completed <==>
      o.embedSamples.Ok? && 0 < |o.embedSamples.value| <= |SampleTexts| &&
      (o.put.Err? || (o.embedQuery.Ok? && |o.embedQuery.value| > 0))
  {
    var listed := [ListBuckets, ListIndexes(bucket), Embed(SampleTexts)];
    match o.embedSamples
    case Err(message) => Run(listed, Uncaught(ServiceException(message)))
    case Ok(embeddings) =>
      if |embeddings| == 0 then Run(listed, Uncaught(IndexError))
      else
        var insert := InsertVectorsSpec(bucket, index, embeddings, SampleMetadata(SampleTexts), keys, o.put);
        var inserted := listed + insert.events;
        if insert.result == InsertIndexError then Run(inserted, Uncaught(IndexError))
        else if !insert.result.Truthy() then Run(inserted, Completed)
        else
          var waited := inserted + [Sleep(IndexingDelay), Embed([QueryText])];
          match o.embedQuery
          case Err(message) => Run(waited, Uncaught(ServiceException(message)))
          case Ok(queryEmbeddings) =>
            if |queryEmbeddings| == 0 then Run(waited, Uncaught(IndexError))
            else
              var q := QueryVectors(bucket, index, queryEmbeddings[0], DefaultTopK, o.query);
              Run(waited + [q.event], Completed)
  }

  /** The whole of main, as a function of the service replies. */
  function DemoRun(bucket: string, index: string, keys: KeyStream, o: Oracle): (r: Run)
    ensures |r.trace| >= 1 && r.trace[0] == CreateBucket(bucket)
    ensures r.exit.Uncaught? ==> SetupInfrastructure(bucket, index, o.createBucket, o.createIndex).ok
  {
    var setup := SetupInfrastructure(bucket, index, o.createBucket, o.createIndex);
    if !setup.ok then Run(setup.events, Completed)
    else
      var after := AfterProbing(bucket, index, keys, o);
      Run(setup.events + [Sleep(InitialDelay)] + ProbeRounds(bucket, index, o.probe, 0) + after.trace, after.exit)
  }

  /** main from the resource listing on. */
  method ContinueAfterProbing(bucket: string, index: string, keys: KeyStream, o: Oracle) returns (trace: seq<Event>, exit: Exit)
    ensures Run(trace, exit) == AfterProbing(bucket, index, keys, o)
  {
    trace := [ListBuckets, ListIndexes(bucket), Embed(SampleTexts)];
    if o.embedSamples.Err? {
      return trace, Uncaught(ServiceException(o.embedSamples.message));
    }
    var embeddings := o.embedSamples.value;
    if |embeddings| == 0 {
      return trace, Uncaught(IndexError);
    }
    var metadata := SampleMetadata(SampleTexts);
    var insertResult, calls := InsertVectors(bucket, index, embeddings, metadata, keys, o.put);
    trace := trace + calls;
    if insertResult == InsertIndexError {
      return trace, Uncaught(IndexError);
    }
    if !insertResult.Truthy() {
      return trace, Completed;
    }
    trace := trace + [Sleep(IndexingDelay), Embed([QueryText])];
    if o.embedQuery.Err? {
      return trace, Uncaught(ServiceException(o.embedQuery.message));
    }
    var queryEmbeddings := o.embedQuery.value;
    if |queryEmbeddings| == 0 {
      return trace, Uncaught(IndexError);
    }
    var q := QueryVectors(bucket, index, queryEmbeddings[0], DefaultTopK, o.query);
    trace := trace + [q.event];
    exit := Completed;
  }

  /** main, step by step. */
  method RunDemo(bucket: string, index: string, keys: KeyStream, o: Oracle) returns (trace: seq<Event>, exit: Exit)
    ensures Run(trace, exit) == DemoRun(bucket, index, keys, o)
  {
    var setup := SetupInfrastructure(bucket, index, o.createBucket, o.createIndex);
    trace := setup.events;
    if !setup.ok {
      return trace, Completed;
    }
    trace := trace + [Sleep(InitialDelay)];
    var probes := AwaitReadiness(bucket, index, o.probe);
    var rest;
    rest, exit := ContinueAfterProbing(bucket, index, keys, o);
    trace := trace + probes + rest;
  }

  /** A bucket or index failure ends main before any pause, probe, embedding, insert or
      query: the run performed only the create calls. */
  lemma SetupFailureAbortsRun(bucket: string, index: string, keys: KeyStream, o: Oracle)
    requires !SetupInfrastructure(bucket, index, o.createBucket, o.createIndex).ok
    ensures var r := DemoRun(bucket, index, keys, o);
      r.exit == Completed && 1 <= |r.trace| <= 2 &&
      forall k :: 0 <= k < |r.trace| ==> r.trace[k].CreateBucket? || r.trace[k].CreateIndex?
  {
  }

  /** After a successful setup: the two create calls, one unconditional pause, then the
      probing loop (between one and three probes), whose last action is a probe and
      which is followed directly by the resource listing. */
  lemma SetupThenWaitThenProbe(bucket: string, index: string, keys: KeyStream, o: Oracle)
    requires SetupInfrastructure(bucket, index, o.createBucket, o.createIndex).ok
    ensures var t := DemoRun(bucket, index, keys, o).trace;
      var p := ProbeRounds(bucket, index, o.probe, 0);
      1 <= |p| <= 2 * MaxRetries - 1 && |t| > 3 + |p| &&
      t[..3] == [CreateBucket(bucket), CreateIndex(bucket, index, DefaultIndexConfig), Sleep(InitialDelay)] &&
      t[3..3 + |p|] == p &&
      t[2 + |p|] == Probe(bucket, index, ProbeRequest()) &&
      t[3 + |p|] == ListBuckets
  {
    ReadinessLoopBounds(bucket, index, o.probe);
  }

  /** Probing never ends the run: whatever the probes reply, main goes on to embed the
      samples and ends the same way. */
  lemma ProbingNeverFatal(bucket: string, index: string, keys: KeyStream, o: Oracle, replies: nat -> Outcome<QueryResponse>)
    requires SetupInfrastructure(bucket, index, o.createBucket, o.createIndex).ok
    ensures Embed(SampleTexts) in DemoRun(bucket, index, keys, o).trace
    ensures DemoRun(bucket, index, keys, o.(probe := replies)).exit == DemoRun(bucket, index, keys, o).exit
  {
    var head := SetupInfrastructure(bucket, index, o.createBucket, o.createIndex).events + [Sleep(InitialDelay)] + ProbeRounds(bucket, index, o.probe, 0);
    var a := AfterProbing(bucket, index, keys, o).trace;
    assert DemoRun(bucket, index, keys, o).trace == head + a;
    assert a[2] == Embed(SampleTexts);
    assert AfterProbing(bucket, index, keys, o.(probe := replies)) == AfterProbing(bucket, index, keys, o);
  }

  /** The replies under which main gets as far as its query: the samples were embedded
      into at least one and at most as many vectors as there are texts, the put was
      accepted, and the query text was embedded. */
  predicate ReachesQuery(o: Oracle)
  {
    o.embedSamples.Ok? && 0 < |o.embedSamples.value| <= |SampleTexts| && o.put.Ok? &&
    o.embedQuery.Ok? && |o.embedQuery.value| > 0
  }

  /** The steps after probing when every call succeeds: list the resources, embed the
      samples, put their records, pause, embed the query text, and query with the first
      query embedding, top_k 5, distances and metadata requested. */
  lemma AcceptedInsertThenQuery(bucket: string, index: string, keys: KeyStream, o: Oracle)
    requires ReachesQuery(o)
    ensures AfterProbing(bucket, index, keys, o).trace ==
      [ListBuckets, ListIndexes(bucket), Embed(SampleTexts),
       Put(bucket, index, Records(o.embedSamples.value, SampleMetadata(SampleTexts), keys)),
       Sleep(IndexingDelay), Embed([QueryText]),
       Query(bucket, index, QueryRequest(Float32(o.embedQuery.value[0]), DefaultTopK, true, true))]
  {
  }

  /** Otherwise the steps after probing hold no query. */
  lemma NoQueryWithoutAcceptedInsert(bucket: string, index: string, keys: KeyStream, o: Oracle)
    requires !ReachesQuery(o)
    ensures forall e <- AfterProbing(bucket, index, keys, o).trace :: !e.Query?
  {
  }

  /** Write before read: any query main makes is its last action, preceded by a put the
      service accepted, then the 15-second pause, then the query embedding; it sends the
      first query embedding with top_k 5, distances and metadata requested. */
  lemma QueryOnlyAfterAcceptedInsert(bucket: string, index: string, keys: KeyStream, o: Oracle)
    ensures var t := DemoRun(bucket, index, keys, o).trace;
      forall j :: 0 <= j < |t| && t[j].Query? ==>
        j == |t| - 1 && j >= 3 && t[j - 3].Put? && t[j - 2] == Sleep(IndexingDelay) &&
        t[j - 1] == Embed([QueryText]) && o.put.Ok? &&
        o.embedQuery.Ok? && |o.embedQuery.value| > 0 &&
        t[j] == Query(bucket, index, QueryRequest(Float32(o.embedQuery.value[0]), DefaultTopK, true, true))
  {
    var setup := SetupInfrastructure(bucket, index, o.createBucket, o.createIndex);
    if setup.ok {
      var t := DemoRun(bucket, index, keys, o).trace;
      var head := setup.events + [Sleep(InitialDelay)] + ProbeRounds(bucket, index, o.probe, 0);
      var a := AfterProbing(bucket, index, keys, o).trace;
      assert t == head + a;
      if ReachesQuery(o) {
        AcceptedInsertThenQuery(bucket, index, keys, o);
      } else {
        NoQueryWithoutAcceptedInsert(bucket, index, keys, o);
      }
      forall j | 0 <= j < |t| && t[j].Query?
        ensures j >= |head| && t[j] == a[j - |head|] && a[j - |head|] in a
      {
        if j >= |head| {
          assert t[j] == a[j - |head|];
        }
      }
    }
  }

  /** The query happens exactly when setup succeeded, the samples were embedded into at
      least one and at most as many vectors as there are texts, the put was accepted,
      and the query text was embedded. */
  lemma QueryIffInsertAccepted(bucket: string, index: string, keys: KeyStream, o: Oracle)
    ensures var t := DemoRun(bucket, index, keys, o).trace;
      (exists j :: 0 <= j < |t| && t[j].Query?) <==>
        SetupInfrastructure(bucket, index, o.createBucket, o.createIndex).ok && ReachesQuery(o)
  {
    var setup := SetupInfrastructure(bucket, index, o.createBucket, o.createIndex);
    if setup.ok {
      var t := DemoRun(bucket, index, keys, o).trace;
      var head := setup.events + [Sleep(InitialDelay)] + ProbeRounds(bucket, index, o.probe, 0);
      var a := AfterProbing(bucket, index, keys, o).trace;
      assert t == head + a;
      if ReachesQuery(o) {
        AcceptedInsertThenQuery(bucket, index, keys, o);
        assert t[|t| - 1].Query?;
      } else {
        NoQueryWithoutAcceptedInsert(bucket, index, keys, o);
        forall j | 0 <= j < |t|
          ensures !t[j].Query?
        {
          if j >= |head| {
            assert t[j] == a[j - |head|];
          }
        }
      }
    }
  }

  /** Within the steps after probing, the only put is the fourth action and carries the
      records built from the sample embeddings and their metadata. */
  lemma {:induction false} PutAfterProbing(bucket: string, index: string, keys: KeyStream, o: Oracle)
    ensures var a := AfterProbing(bucket, index, keys, o).trace;
      forall j :: 0 <= j < |a| && a[j].Put? ==>
        j == 3 && o.embedSamples.Ok? && |o.embedSamples.value| <= |SampleTexts| &&
        a[j] == Put(bucket, index, Records(o.embedSamples.value, SampleMetadata(SampleTexts), keys))
  {
    var a := AfterProbing(bucket, index, keys, o).trace;
    if o.embedSamples.Ok? && |o.embedSamples.value| > 0 {
      var insert := InsertVectorsSpec(bucket, index, o.embedSamples.value, SampleMetadata(SampleTexts), keys, o.put);
      if insert.result != InsertIndexError {
        assert a[..4] == [ListBuckets, ListIndexes(bucket), Embed(SampleTexts), insert.events[0]];
      }
    }
  }

  /** main makes at most one put, and it carries one record per sample embedding, in
      order: record i holds the i-th key, the i-th embedding and the metadata of the
      i-th sample text. */
  lemma OnePutOfSampleRecords(bucket: string, index: string, keys: KeyStream, o: Oracle)
    ensures var t := DemoRun(bucket, index, keys, o).trace;
      (forall j, k :: 0 <= j < k < |t| && t[j].Put? ==> !t[k].Put?) &&
      forall j :: 0 <= j < |t| && t[j].Put? ==>
        o.embedSamples.Ok? && |t[j].records| == |o.embedSamples.value| <= |SampleTexts| &&
        forall i :: 0 <= i < |t[j].records| ==>
          t[j].records[i] == VectorRecord(keys(i), Float32(o.embedSamples.value[i]),
                                          map["original_text" := SampleTexts[i], "source" := "demo"])
  {
    var setup := SetupInfrastructure(bucket, index, o.createBucket, o.createIndex);
    if setup.ok {
      var t := DemoRun(bucket, index, keys, o).trace;
      var head := setup.events + [Sleep(InitialDelay)] + ProbeRounds(bucket, index, o.probe, 0);
      var a := AfterProbing(bucket, index, keys, o).trace;
      PutAfterProbing(bucket, index, keys, o);
      assert t == head + a;
      forall j | 0 <= j < |t| && t[j].Put?
        ensures j == |head| + 3 && t[j] == a[3]
      {
        if j >= |head| {
          assert t[j] == a[j - |head|];
        }
      }
    }
  }

  /** A query result carrying the metadata stored for sample i is displayed with the
      text of sample i. */
  lemma SampleTextRoundTrip(i: nat, m: QueryMatch)
    requires i < |SampleTexts| && m.metadata == Some(SampleMetadata(SampleTexts)[i])
    ensures ShownText(m) == SampleTexts[i]
  {
  }
}
