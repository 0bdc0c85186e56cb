# S3 Vectors proof of concept: the orchestration, modelled and proved in Dafny

The repository drives two external services: the S3 Vectors API (through boto3) and
the OpenAI embeddings API. Underneath the client calls there is a small sequential
body of decision logic. This project models that logic with each remote call replaced
by a scripted reply: an `Outcome` is either `Ok(value)` or `Err(message)`, where the
message is the text of the exception the client raised. Every externally visible
action a run takes is recorded, in order, in a trace of `Event`s: `CreateBucket`,
`CreateIndex`, `Sleep(n)`, `Probe`, `ListBuckets`, `ListIndexes`, `Embed`,
`Put(records)` and `Query(request)`.

Modules, one per component of `s3_bucket.py`, plus one for `s3_clean_short.py`:

- `Text` (text.dfy): Python's `needle in text` and `text.lower()`, with the fact the
  classifiers rely on. Lower-casing never loses an occurrence.
- `Services` (services.dfy): requests, replies, records, events and how a run ends.
- `Provisioner` (provisioner.dfy): `create_vector_bucket`, `create_vector_index`
  and `setup_infrastructure`. It covers the "already exists" classification and the
  short-circuit.
- `Prober` (prober.dfy): `test_index_with_simple_operation` and `main`'s bounded
  readiness loop. The loop is a method proved against a specification function, and
  the lemmas give its shape (alternating probes and pauses, at most three probes, no
  pause after the last) and show that it stops at the first "ready".
- `Ingestion` (ingestion.dfy): `insert_vectors`. A loop builds one record per vector,
  then a single put is made. The lemmas show the records give back exactly the vectors
  and metadata, in order, and that the keys are distinct when the key generator's are.
- `Query` (query.dfy): `query_vectors` and its display of the results, in the
  service's order, with its fallbacks. It holds both the as-written and the corrected
  display (see Findings).
- `Demo` (demo.dfy): `main`. It sequences setup, an unconditional pause, probing,
  listing, embedding, the insert and the query. Its lemmas: a setup failure ends the
  run after the create calls, probing never ends the run, at most one put of the sample
  records is made, and a query happens if and only if setup succeeded, the samples were
  embedded into one to five vectors, the put returned and the query text was embedded.
  Any query comes after the 15-second pause (write before read).
- `CleanShort` (clean_short.dfy): `insert`, where `zip` truncates to the shorter list
  (proved equal to index-based building on the truncated input), `query`, which has no
  exception handling, and the module-level demo.

Behaviours of the code that the model keeps as they are:

- `insert_vectors` (s3_bucket.py:103-125) does not special-case an empty batch: it
  makes one put with no records. `main` always passes five fixed texts.
- `query_vectors` (s3_bucket.py:127-137) passes `top_k` to the service unchecked.
- `test_index_with_simple_operation` (s3_bucket.py:190-197) returns `True` for every
  failure other than "not ready" or "building", exactly as for success, so the loop
  goes on as if the index were ready.
- In `main` (s3_bucket.py:239-260), an exception from the embeddings client,
  `embeddings[0]` on an empty list, and `metadata_list[i]` past the end of the list
  are not caught. The model ends such a run with `Uncaught(...)`.

## Model

| member | source | states |
|---|---|---|
| Text.Lower | s3_bucket.py:41 | `s.lower()` has the length of `s` and lower-cases each character in place |
| Text.ContainsAt | s3_bucket.py:41 | `w in s` holds exactly when some suffix of `s` starts with `w` |
| Text.NotContainsLonger | s3_bucket.py:191 | a text shorter than a phrase never contains it |
| Text.LowerKeepsOccurrence | s3_bucket.py:41 | whatever occurs in `s` occurs, lower-cased, in `s.lower()`, so the lower-case test is case-insensitive |
| Provisioner.CreateVectorBucket | s3_bucket.py:28-46 | a normal return gives back the response whatever its HTTP status; an exception gives `True` exactly when its text has "BucketAlreadyExists" or its lower-cased text has "already exists", and `None` otherwise |
| Provisioner.CreateVectorIndex | s3_bucket.py:48-70 | the same classification with "IndexAlreadyExists" |
| Provisioner.PhraseInAnyCaseIsSuccess | s3_bucket.py:40-43 | an exception whose text has "already exists" in any casing is absorbed as success |
| Provisioner.ShortMessageIsFailure | s3_bucket.py:44-46 | an exception text too short to hold the marker or the phrase is reported as failure (`None`) |
| Provisioner.SetupInfrastructure | s3_bucket.py:155-172 | result `True` if and only if both create steps returned something truthy; the bucket call always comes first, and the index call (with float32, 3072, cosine) is made if and only if the bucket step succeeded |
| Provisioner.AnyStatusProceeds | s3_bucket.py:34-39 | create calls that return normally let setup succeed whatever HTTP status they report |
| Provisioner.RepeatedSetupSucceeds | s3_bucket.py:155-172 | re-running setup against existing resources ("already exists" in any casing from both calls) makes both calls and succeeds |
| Provisioner.BucketFailureSkipsIndex | s3_bucket.py:160-163 | a bucket failure other than "already exists" ends setup with `False` before the index is attempted |
| Prober.ProbeRequest | s3_bucket.py:179-187 | the probe queries with exactly 3072 copies of 0.1, `topK=1`, distances and metadata requested |
| Prober.TestIndexWithSimpleOperation | s3_bucket.py:174-197 | the probe says "not ready" exactly when the query raised and the lower-cased text has "not ready" or "building"; success and every other failure say "proceed" |
| Prober.BuildingInAnyCaseRetries | s3_bucket.py:190-193 | "not ready" or "building" in any casing leads to a retry |
| Prober.ShortFailureProceeds | s3_bucket.py:194-197 | a failure text too short for either phrase is read as "proceed anyway" |
| Prober.ProbeRounds | s3_bucket.py:216-222 | the loop's actions from a given attempt: at most two per remaining attempt, starting with a probe when an attempt remains, and nothing but probes and 30-second pauses |
| Prober.AwaitReadiness | s3_bucket.py:216-222 | the retry loop performs exactly the probes and pauses of the loop's specification |
| Prober.ProbeRoundsAlternate | s3_bucket.py:216-222 | from any attempt on, probes and 30-second pauses alternate, starting and ending with a probe, with at most one probe per remaining attempt |
| Prober.ProbeRoundsStopAtFirstReady | s3_bucket.py:217-219 | every probe before the last one reported "still building", and fewer than three probes means the last one reported ready |
| Prober.ReadinessLoopBounds | s3_bucket.py:216-222 | the loop makes 1 to 3 probes with one fewer pauses, and the last action is a probe, never a pause |
| Prober.ReadyAfterBuilding | s3_bucket.py:217-219 | if attempts before j are still building and attempt j is ready, exactly j + 1 probes are made |
| Prober.NeverReadyStillReturns | s3_bucket.py:216-222 | "still building" three times gives probe, pause, probe, pause, probe, and the loop returns |
| Ingestion.RecordsGiveBackInputs | s3_bucket.py:105-111 | the built records carry exactly the input vectors, in order, and the metadata entries paired with them |
| Ingestion.RecordKeysDistinct | s3_bucket.py:108 | keys that the generator hands out distinct give records with pairwise distinct keys |
| Ingestion.InsertVectorsSpec | s3_bucket.py:103-125 | a metadata list shorter than the vectors raises IndexError before any call; otherwise exactly one put with one record per vector (key i, `vectors[i]` under float32, `metadata_list[i]`); the result is truthy exactly when the put returned, whatever its status, and `None` after an exception |
| Ingestion.InsertVectors | s3_bucket.py:103-125 | the append loop and the single put produce exactly the specified result and calls |
| Query.QueryRequestFor | s3_bucket.py:130-137 | the query carries the given vector and top_k and asks for distances and metadata |
| Query.ShownText | s3_bucket.py:143-144 | the displayed text is the result's 'original_text' when its metadata has one, and "No text available" otherwise (also when metadata is missing) |
| Query.ShownTextIsStoredText | s3_bucket.py:143-144 | a result carrying stored metadata is displayed with its 'original_text' |
| Query.Render | s3_bucket.py:142-146 | one display line per result, in the service's order, ranked from 1, with the text or its fallback and the distance |
| Query.RenderAsWritten | s3_bucket.py:142-146 | the lines printed as written are a prefix of the intended ones and every printed result has a distance; printing breaks off exactly when some result lacks a distance, at the first such result |
| Query.QueryVectorsAsWritten | s3_bucket.py:127-153 | as written: one query; a failed query prints nothing and returns `None`; a successful one prints the as-written lines and returns `None` exactly when some result lacks a distance, and the response otherwise |
| Query.QueryVectors | s3_bucket.py:127-153 | as intended: one query; the response is returned exactly when the query succeeds, with every result shown in order; failure returns `None` |
| Query.AsWrittenAgreesWithoutMissingDistance | s3_bucket.py:145-146 | the written and intended display agree whenever every result carries its distance |
| Query.MissingDistanceDropsResponse | s3_bucket.py:145-146 | one result without a distance: as written nothing is printed and `None` is returned; as intended the result is shown and the response returned |
| Demo.SampleMetadata | s3_bucket.py:245 | one `{"original_text": text, "source": "demo"}` entry per sample text, in order |
| Demo.AfterProbing | s3_bucket.py:224-262 | main after probing: 3 to 7 actions, starting with the two listings and the sample embedding; it ends normally exactly when the samples embed into 1 to 5 vectors and then either the put fails (query skipped) or the query text embeds |
| Demo.DemoRun | s3_bucket.py:199-262 | the whole of main starts with the bucket creation, and an uncaught exception can end it only after setup succeeded |
| Demo.ContinueAfterProbing | s3_bucket.py:224-262 | listing, embedding, insert and conditional query happen exactly as specified |
| Demo.RunDemo | s3_bucket.py:199-262 | main performs exactly the specified trace and ends as specified |
| Demo.SetupFailureAbortsRun | s3_bucket.py:207-209 | a failed setup ends main after the create calls, with no pause, probe, embedding, insert or query |
| Demo.SetupThenWaitThenProbe | s3_bucket.py:207-222 | after setup: bucket, index, one 30-second pause, then the probing loop (1 to 3 probes) ending in a probe, then the listing |
| Demo.ProbingNeverFatal | s3_bucket.py:215-241 | whatever the probes reply, main goes on to embed the samples and ends the same way |
| Demo.AcceptedInsertThenQuery | s3_bucket.py:224-262 | when the samples embed into 1 to 5 vectors, the put returns and the query text embeds, the steps after probing are exactly: list buckets, list indexes, embed, one put of the sample records, the 15-second pause, embed the query text, and query with the first query embedding, top_k 5, distances and metadata |
| Demo.NoQueryWithoutAcceptedInsert | s3_bucket.py:236-262 | under any other replies the steps after probing contain no query |
| Demo.QueryOnlyAfterAcceptedInsert | s3_bucket.py:249-262 | over the whole run: any query is the last action and comes right after an accepted put, the 15-second pause and the query embedding, and it sends the first query embedding with top_k 5, distances and metadata |
| Demo.QueryIffInsertAccepted | s3_bucket.py:239-262 | a query is made if and only if setup succeeded, the samples embedded into 1 to 5 vectors, the put returned and the query text was embedded |
| Demo.PutAfterProbing | s3_bucket.py:239-249 | after probing, the only put is the fourth action and carries the records built from the sample embeddings |
| Demo.OnePutOfSampleRecords | s3_bucket.py:239-249 | at most one put; it holds one record per embedding, in order, with key i, embedding i and the metadata of sample text i |
| Demo.SampleTextRoundTrip | s3_bucket.py:245 | a result carrying the metadata stored for sample i is displayed with sample i's text |
| CleanShort.Zip | s3_clean_short.py:25 | `zip` pairs elements by position and stops at the shorter list |
| CleanShort.ShortRecords | s3_clean_short.py:21-25 | min(len(vectors), len(metadatas)) records, record i with key i, `vectors[i]` under float32 and `metadatas[i]` |
| CleanShort.ZipIsIndexingOnTruncated | s3_clean_short.py:21-25 | zip-based building equals index-based building on the vectors that have a metadata partner, and equals it outright when every vector has one |
| CleanShort.ShortRecordsGiveBackInputs | s3_clean_short.py:21-25 | the records carry the paired vectors and metadata in order; only the surplus of the longer list is dropped |
| CleanShort.Insert | s3_clean_short.py:20-26 | one put of all zipped records to the given bucket and index; the reply is returned unchanged, so an exception propagates |
| CleanShort.PrintResults | s3_clean_short.py:33-34 | results are printed in the service's order until one lacks metadata or distance, which raises KeyError; without such a result every one is printed |
| CleanShort.QueryShort | s3_clean_short.py:28-34 | one query with the given top_k, distances and metadata; on a reply, line i shows result i's 'original_text' and distance, in the service's order, until a result without metadata or distance raises KeyError (the only exception then); a missing 'vectors' entry prints nothing; a service exception propagates with nothing printed |
| CleanShort.ShortMetadata | s3_clean_short.py:42 | one `{"original_text": t}` entry per text, in order |
| CleanShort.ShortDemo | s3_clean_short.py:36-45 | the demo makes 1 to 5 actions starting with the embedding of the texts, and completes exactly when the embedding, the put, the query embedding (non-empty) and the query all succeed and every result has metadata and a distance |
| CleanShort.ShortDemoInsertsBeforeQuery | s3_clean_short.py:36-45 | the demo embeds, then puts the texts' records, each with its text as 'original_text'; a query happens only after the put returned, the 10-second pause and the query embedding, with top_k 3 |

## Findings

| source | as written | input that shows it | evidently intended | confidence | as-written member | corrected member |
|---|---|---|---|---|---|---|
| s3_bucket.py:145-146 | a result without 'distance' gets the string 'N/A', which `:.4f` cannot format; the ValueError is caught at lines 151-153, so printing stops and query_vectors returns `None` for a query that succeeded | a reply whose 'vectors' list holds one entry without 'distance' | show that result with 'N/A', keep printing, return the response | high; not executed | Query.QueryVectorsAsWritten | Query.QueryVectors |

`main` throws away what query_vectors returns, so the run's trace is the same with
either member. `Demo` uses the corrected one.

## Left out

- The boto3 `s3vectors` client and the OpenAI client. Each call is a scripted reply,
  and the value or the exception text is all the code inspects.
- `generate_embeddings` and `embed`: the call is an `Embed` event and its reply. The
  extraction of `response.data` belongs to the client.
- Environment and credential loading (`dotenv`, `os.environ`, `os.getenv`). This
  includes the time-based default bucket name and a missing variable becoming `None`.
  Bucket and index names are parameters.
- `time.sleep`: a `Sleep(seconds)` event, not real time.
- `uuid.uuid4`: an injected key stream. Distinct keys are an assumption about the
  generator (`DistinctKeys`), not something the code ensures.
- Floating-point vector contents and the `:.4f` formatting. Elements are `real`
  stand-ins that are never computed with.
- `list_vector_buckets` and `list_vector_indexes`: only their calls appear in the trace.
  They catch every exception and `main` ignores their results.
- Printed status messages (the emoji diagnostics and "HTTP status" lines). Only the
  result lines of the query displays are modelled.
- Nearest-neighbour ranking, top-k truncation and ordering by distance happen in the
  service. The code neither sorts nor truncates, so the model shows results in the
  order given.
- That repeated provisioning creates no duplicate resource is a property of the
  service. The model proves only that the repeated setup succeeds.
- Text.Lower: maps ASCII letters only. Python's `str.lower()` also maps non-ASCII
  letters, some to more than one character, and that can change whether a phrase
  matches.
- A boto3 response is taken to be truthy always, because it always carries
  'ResponseMetadata'. An empty response dict is not modelled.
- The module-level client construction and the `print` calls of both files.
