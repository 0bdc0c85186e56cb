/** create_vector_bucket, create_vector_index and setup_infrastructure of s3_bucket.py:
    idempotent provisioning, where an "already exists" failure counts as success. */
module Provisioner {
  import opened Text
  import opened Services

  const BucketMarker := "BucketAlreadyExists"
  const IndexMarker := "IndexAlreadyExists"
  /** The case-insensitive phrase both create helpers also accept. */
  const ExistsPhrase := "already exists"

  /** The index every run asks for: create_vector_index's defaults. */
  const DefaultIndexConfig := IndexConfig("float32", VectorDimensions, "cosine")

  /** What a create helper returns: the service response, `True`, or `None`. */
  datatype CreateResult = Returned(response: Response) | ExistedTrue | NoneResult
  {
    /** Python truthiness of the returned value (a response dict is never empty). */
    predicate Truthy()
    {
      !NoneResult?
    }
  }

  /** The error-text test of a create helper: the exception names the marker, or its
      lower-cased text has "already exists". */
  predicate AlreadyExists(marker: string, message: string)
  {
    Contains(message, marker) || Contains(Lower(message), ExistsPhrase)
  }

  /** The shared body of both create helpers, given the marker each one looks for. */
  function Create(marker: string, reply: Outcome<Response>): CreateResult
  {
    match reply
    case Ok(response) => Returned(response)
    case Err(message) => if AlreadyExists(marker, message) then ExistedTrue else NoneResult
  }

  /** create_vector_bucket: the response whatever its HTTP status, `True` when the
      failure says the bucket already exists, `None` on any other failure. */
  function CreateVectorBucket(reply: Outcome<Response>): (r: CreateResult)
    ensures reply.Ok? ==> r == Returned(reply.value)
    ensures reply.Err? ==> (r == ExistedTrue <==> AlreadyExists(BucketMarker, reply.message))
    ensures reply.Err? ==> (r == NoneResult <==> !AlreadyExists(BucketMarker, reply.message))
  {
    Create(BucketMarker, reply)
  }

  /** create_vector_index: the same classification with the index marker. */
  function CreateVectorIndex(reply: Outcome<Response>): (r: CreateResult)
    ensures reply.Ok? ==> r == Returned(reply.value)
    ensures reply.Err? ==> (r == ExistedTrue <==> AlreadyExists(IndexMarker, reply.message))
    ensures reply.Err? ==> (r == NoneResult <==> !AlreadyExists(IndexMarker, reply.message))
  {
    Create(IndexMarker, reply)
  }

  /** Any casing of "already exists" inside the exception text is absorbed as success,
      for either marker. */
  lemma PhraseInAnyCaseIsSuccess(marker: string, message: string, w: string)
    requires Contains(message, w) && Lower(w) == ExistsPhrase
    ensures Create(marker, Err(message)) == ExistedTrue
  {
    LowerKeepsOccurrence(message, w);
  }

  /** A failure whose text is shorter than both the marker and the phrase can name
      neither, so the helper reports failure. */
  lemma ShortMessageIsFailure(marker: string, message: string)
    requires |message| < |marker| && |message| < |ExistsPhrase|
    ensures Create(marker, Err(message)) == NoneResult
  {
    NotContainsLonger(message, marker);
    NotContainsLonger(Lower(message), ExistsPhrase);
  }

  /** The result of setup_infrastructure: the create calls it made, and its verdict. */
  datatype SetupRun = SetupRun(events: seq<Event>, ok: bool)

  /** setup_infrastructure: create the bucket, and only if that returned something
      truthy create the index; `True` only when both steps did. */
  function SetupInfrastructure(bucket: string, index: string, bucketReply: Outcome<Response>, indexReply: Outcome<Response>): (r: SetupRun)
    ensures r.ok <==> CreateVectorBucket(bucketReply).Truthy() && CreateVectorIndex(indexReply).Truthy()
    ensures 1 <= |r.events| <= 2 && r.events[0] == CreateBucket(bucket)
    ensures |r.events| == 2 <==> CreateVectorBucket(bucketReply).Truthy()
    ensures |r.events| == 2 ==> r.events[1] == CreateIndex(bucket, index, DefaultIndexConfig)
  {
    if !CreateVectorBucket(bucketReply).Truthy() then
      SetupRun([CreateBucket(bucket)], false)
    else
      SetupRun([CreateBucket(bucket), CreateIndex(bucket, index, DefaultIndexConfig)],
               CreateVectorIndex(indexReply).Truthy())
  }

  /** A create call that returns normally lets setup go on whatever HTTP status it reports. */
  lemma AnyStatusProceeds(bucket: string, index: string, s1: Option<int>, s2: Option<int>)
    ensures SetupInfrastructure(bucket, index, Ok(Response(s1)), Ok(Response(s2))).ok
  {
  }

  /** Running setup again against resources that already exist succeeds: each create
      fails with some casing of "already exists", and both failures are absorbed. */
  lemma RepeatedSetupSucceeds(bucket: string, index: string, bucketMessage: string, indexMessage: string, w1: string, w2: string)
    requires Contains(bucketMessage, w1) && Lower(w1) == ExistsPhrase
    requires Contains(indexMessage, w2) && Lower(w2) == ExistsPhrase
    ensures SetupInfrastructure(bucket, index, Err(bucketMessage), Err(indexMessage)) == SetupRun([CreateBucket(bucket), CreateIndex(bucket, index, DefaultIndexConfig)], true)
  {
    PhraseInAnyCaseIsSuccess(BucketMarker, bucketMessage, w1);
    PhraseInAnyCaseIsSuccess(IndexMarker, indexMessage, w2);
  }

  /** If the bucket step fails, the index is never attempted and setup fails. */
  lemma BucketFailureSkipsIndex(bucket: string, index: string, bucketMessage: string, indexReply: Outcome<Response>)
    requires !AlreadyExists(BucketMarker, bucketMessage)
    ensures SetupInfrastructure(bucket, index, Err(bucketMessage), indexReply) == SetupRun([CreateBucket(bucket)], false)
  {
  }
}
