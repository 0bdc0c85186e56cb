/** query_vectors of s3_bucket.py: one similarity query, then one display line per
    result in the order the service returned them. */
module Query {
  import opened Services

  /** query_vectors' default top_k. */
  const DefaultTopK: int := 5
  /** The text shown when a result's metadata has no 'original_text'. */
  const NoText := "No text available"

  /** One printed result: its 1-based rank, its text and its distance (`None` stands
      for the 'N/A' fallback). */
  datatype DisplayLine = DisplayLine(rank: nat, text: string, distance: Option<Float>)

  /** The request query_vectors sends. */
  function QueryRequestFor(vector: seq<Float>, topK: int): (q: QueryRequest)
    ensures q.queryVector.values == vector && q.topK == topK
    ensures q.returnDistance && q.returnMetadata
  {
    QueryRequest(Float32(vector), topK, true, true)
  }

  /** `result.get('metadata', {}).get('original_text', 'No text available')`. */
  function ShownText(m: QueryMatch): (text: string)
    ensures m.metadata.Some? && "original_text" in m.metadata.value ==> text == m.metadata.value["original_text"]
    ensures !(m.metadata.Some? && "original_text" in m.metadata.value) ==> text == NoText
  {
    var metadata := if m.metadata.Some? then m.metadata.value else map[];
    if "original_text" in metadata then metadata["original_text"] else NoText
  }

  /** The text stored at ingestion comes back unchanged on display: a result carrying a
      record's metadata shows that record's 'original_text'. */
  lemma ShownTextIsStoredText(m: QueryMatch, text: string, extra: Metadata)
    requires m.metadata == Some(extra["original_text" := text])
    ensures ShownText(m) == text
  {
  }

  /** The display loop as intended: one line per result from rank `rank` on, in the
      service's order, a missing distance shown as 'N/A'. */
  function Render(matches: seq<QueryMatch>, rank: nat): (lines: seq<DisplayLine>)
    ensures |lines| == |matches|
    ensures forall i :: 0 <= i < |matches| ==>
      lines[i] == DisplayLine(rank + i, ShownText(matches[i]), matches[i].distance)
  {
    if matches == [] then []
    else [DisplayLine(rank, ShownText(matches[0]), matches[0].distance)] + Render(matches[1..], rank + 1)
  }

  /** The display loop as written: `f"{distance:.4f}"` raises ValueError when distance
      is the 'N/A' fallback string, so printing stops at the first result without a
      distance. Returns the lines printed and whether that error was raised. */
  function RenderAsWritten(matches: seq<QueryMatch>, rank: nat): (r: (seq<DisplayLine>, bool))
    ensures r.0 <= Render(matches, rank)
    ensures forall i :: 0 <= i < |r.0| ==> matches[i].distance.Some?
    ensures r.1 <==> exists i :: 0 <= i < |matches| && matches[i].distance.None?
    ensures r.1 ==> |r.0| < |matches| && matches[|r.0|].distance.None?
    ensures !r.1 ==> r.0 == Render(matches, rank)
  {
    if matches == [] then ([], false)
    else if matches[0].distance.None? then ([], true)
    else
      var rest := RenderAsWritten(matches[1..], rank + 1);
      assert forall i :: 1 <= i < |matches| ==> matches[1..][i - 1] == matches[i];
      ([DisplayLine(rank, ShownText(matches[0]), matches[0].distance)] + rest.0, rest.1)
  }

  /** What a query_vectors call does: the query it sends, the lines it prints, and the
      value it returns (`None` after an exception). */
  datatype QueryCall = QueryCall(event: Event, lines: seq<DisplayLine>, returned: Option<QueryResponse>)

  /** query_vectors as written: a missing distance makes the display raise, the handler
      catches it and the call returns `None` although the query succeeded. */
  function QueryVectorsAsWritten(bucket: string, index: string, vector: seq<Float>, topK: int, reply: Outcome<QueryResponse>): (r: QueryCall)
    ensures r.event == Query(bucket, index, QueryRequestFor(vector, topK))
    ensures reply.Err? ==> r.lines == [] && r.returned == None
    ensures reply.Ok? ==> r.lines <= Render(reply.value.Matches(), 1)
    ensures r.returned.Some? ==> reply.Ok? && r.returned == Some(reply.value)
    ensures reply.Ok? ==> r.lines == RenderAsWritten(reply.value.Matches(), 1).0
    ensures reply.Ok? ==>
      (r.returned.None? <==> exists i :: 0 <= i < |reply.value.Matches()| && reply.value.Matches()[i].distance.None?)
  {
    var event := Query(bucket, index, QueryRequestFor(vector, topK));
    match reply
    case Err(_) => QueryCall(event, [], None)
    case Ok(response) =>
      var (lines, raised) := RenderAsWritten(response.Matches(), 1);
      QueryCall(event, lines, if raised then None else Some(response))
  }

  /** query_vectors as intended: every result of a successful query is shown, in the
      service's order, and the response is returned; a failed query returns `None`. */
  function QueryVectors(bucket: string, index: string, vector: seq<Float>, topK: int, reply: Outcome<QueryResponse>): (r: QueryCall)
    ensures r.event == Query(bucket, index, QueryRequestFor(vector, topK))
    ensures r.returned.Some? <==> reply.Ok?
    ensures reply.Ok? ==> r.returned == Some(reply.value)
    ensures reply.Ok? ==> |r.lines| == |reply.value.Matches()|
    ensures reply.Ok? ==> forall i :: 0 <= i < |r.lines| ==>
      r.lines[i].rank == i + 1 && r.lines[i].text == ShownText(reply.value.Matches()[i]) &&
      r.lines[i].distance == reply.value.Matches()[i].distance
    ensures reply.Err? ==> r.lines == []
  {
    var event := Query(bucket, index, QueryRequestFor(vector, topK));
    match reply
    case Err(_) => QueryCall(event, [], None)
    case Ok(response) => QueryCall(event, Render(response.Matches(), 1), Some(response))
  }

  /** The two agree exactly when no result lacks its distance. */
  lemma AsWrittenAgreesWithoutMissingDistance(bucket: string, index: string, vector: seq<Float>, topK: int, reply: Outcome<QueryResponse>)
    requires reply.Ok? ==> forall i :: 0 <= i < |reply.value.Matches()| ==> reply.value.Matches()[i].distance.Some?
    ensures QueryVectorsAsWritten(bucket, index, vector, topK, reply) == QueryVectors(bucket, index, vector, topK, reply)
  {
  }

  /** The discrepancy on a concrete reply: one result without a distance. As written,
      nothing is printed and `None` is returned for a query that succeeded; as intended,
      the result is shown with 'N/A' and the response is returned. */
  lemma MissingDistanceDropsResponse(bucket: string, index: string, vector: seq<Float>)
    ensures var reply := Ok(QueryResponse(Some([QueryMatch("k", None, Some(map["original_text" := "fox"]))])));
      QueryVectorsAsWritten(bucket, index, vector, DefaultTopK, reply).returned == None &&
      QueryVectorsAsWritten(bucket, index, vector, DefaultTopK, reply).lines == [] &&
      QueryVectors(bucket, index, vector, DefaultTopK, reply).returned == Some(reply.value) &&
      QueryVectors(bucket, index, vector, DefaultTopK, reply).lines == [DisplayLine(1, "fox", None)]
  {
    var m := QueryMatch("k", None, Some(map["original_text" := "fox"]));
    assert ShownText(m) == "fox";
  }
}
