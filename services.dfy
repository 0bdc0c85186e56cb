/** The two external services (the S3 Vectors API and the embeddings API) as the
    orchestration sees them: requests it sends, replies it gets back, and the trace of
    actions a run performs. A reply is scripted: either a value or the text of the
    exception the client library raised. */
module Services {

  datatype Option<T> = None | Some(value: T)

  /** A vector element. Elements are only passed along, never computed with, so the
      model keeps them opaque; `real` stands in for the wire's float32. */
  type Float = real

  /** A record key: the text of a freshly generated UUID. */
  type Key = string

  /** Record metadata: the demo only ever attaches string values. */
  type Metadata = map<string, string>

  /** The injected key generator: `keys(n)` is the (n+1)-th key it hands out. */
  type KeyStream = nat -> Key

  /** VECTOR_DIMENSIONS: the output width of text-embedding-3-large. */
  const VectorDimensions: nat := 3072

  /** The reply of one remote call: its value, or the text of the exception raised. */
  datatype Outcome<T> = Ok(value: T) | Err(message: string)

  /** A boto3 response. It always carries 'ResponseMetadata', so as a Python dict it is
      never empty and always truthy; only its HTTP status code is ever inspected. */
  datatype Response = Response(httpStatus: Option<int>)

  /** The `{'float32': vec}` payload of a record or a query. */
  datatype VectorData = Float32(values: seq<Float>)

  /** One element of the `vectors` list given to put_vectors. */
  datatype VectorRecord = VectorRecord(key: Key, data: VectorData, metadata: Metadata)

  /** The fixed configuration passed to create_index. */
  datatype IndexConfig = IndexConfig(dataType: string, dimension: nat, distanceMetric: string)

  /** The arguments of a query_vectors call besides the bucket and index names. */
  datatype QueryRequest = QueryRequest(queryVector: VectorData, topK: int, returnDistance: bool, returnMetadata: bool)

  /** One entry of a query reply's 'vectors' list; 'distance' and 'metadata' may be absent. */
  datatype QueryMatch = QueryMatch(key: Key, distance: Option<Float>, metadata: Option<Metadata>)

  /** A query reply; `vectors == None` when the reply has no 'vectors' entry. */
  datatype QueryResponse = QueryResponse(vectors: Option<seq<QueryMatch>>)
  {
    /** The results, in the service's order; a reply without 'vectors' has none. */
    function Matches(): seq<QueryMatch>
    {
      if vectors.Some? then vectors.value else []
    }
  }

  /** One externally visible action of a run, in the order it happens. */
  datatype Event =
    | CreateBucket(bucket: string)
    | CreateIndex(bucket: string, index: string, config: IndexConfig)
    | Sleep(seconds: nat)
    | Probe(bucket: string, index: string, request: QueryRequest)
    | ListBuckets
    | ListIndexes(bucket: string)
    | Embed(texts: seq<string>)
    | Put(bucket: string, index: string, records: seq<VectorRecord>)
    | Query(bucket: string, index: string, request: QueryRequest)

  /** An exception that escapes a script and ends it. */
  datatype PyException = ServiceException(message: string) | IndexError | KeyError

  /** How a script ends: by returning, or by an uncaught exception. */
  datatype Exit = Completed | Uncaught(error: PyException)

  /** What a whole run does: the actions it performs and how it ends. */
  datatype Run = Run(trace: seq<Event>, exit: Exit)

  /** The first `n` keys handed out are pairwise different: what uuid4 is relied on for. */
  predicate DistinctKeys(keys: KeyStream, n: nat)
  {
    forall i, j :: 0 <= i < j < n ==> keys(i) != keys(j)
  }
}
