# ShardS3: a Dafny model

ShardS3 stores an object by cutting it into chunks, erasure-coding each chunk into equal segments, spreading the
segments over several unreliable backends, and recording the layout in relational tables. This project models that
path from the bytes of a request to blobs and rows and back, and proves what it is for: **the store behaves as a map
from (bucket, key) to bytes, over every run of overlapping streams and with any tolerated set of backends down**
(`Concurrent.ConcurrentReads`). There is one exception, and it is characterised exactly: a delete that gives up
part-way may damage its own object (below).

`dafny verify dfyconfig.toml` checks everything. The modules build on each other in this order:

| modules | content |
|---|---|
| Base, Parity, SegmentSize, ErasureCode, Layout | arithmetic of the planner, the segments, the hypothesis on the code and an instance of it, the even split and the greedy merge |
| Backends, Sharding, Collecting, FaultTolerance | the blob store, `ShardData` with its parallel uploads, `CollectShards`, and the theorem that any F failures are survived |
| Planning, Chunks, Slices, Pipeline, PipelineResults, PipelineRuns | what a worker plans to upload; one chunk through compression, encryption and sharding; `ChunkStream` as a transition system over all interleavings, what every run guarantees, and which runs there are |
| Ordering, Paging, Schema, Representation, Metadata, Multipart, Listings, Database | ORDER BY and LIMIT, the tables with keys, cascades and indexes, what they represent, the transactions, completion of uploads, the listings, and the class that runs the transactions |
| ObjectStore, Integrity, References, Refinement, Promises, Confluence | runs of the whole store, the constraints of the tables, which blobs the rows refer to, the refinement proof, what clients can rely on, and the order of part uploads |
| Concurrent, Examples, Damage | calls that overlap, a small system to run them on, and deletes that give up |
| Deleting, Streaming, Manager | deleting chunks, what a stream has so far and what can be in its way, and the object manager's calls as runs |
| RangeHeader, RangeRead, Response | the Range and Content-Range headers, range reads, and what a client receives when a read breaks |

## How the model is set up

- The erasure code, compression and encryption are parameters. `IsMDS` (any d of d + p segments determine all) and
  `Inverse` (decompress and decrypt undo compress and encrypt; decompression looks only at the kind) are hypotheses of
  the theorems, not axioms; `XorCode.XorIsMDS` and `Chunks.ConfiguredIsPossible` show that they can be met.
  `Code.supports` stands for what the Reed-Solomon library accepts; where it refuses, `ShardData` fails.
- The standing conditions are those that start-up checks: more backends than the failure tolerance, distinct backend
  ids, positive limits. A negative tolerance is allowed and means no parity.
- Blob locations, chunk ids and upload ids are numbers. A location is new when a backend hands it out; a chunk or
  upload id that is already in use makes the insert fail, as the primary key does.
- A transaction is a function from tables to tables that yields nothing when a statement violates a constraint. The
  methods of `Database` run the statements one by one on a working copy, each with its loops, and commit or
  leave the tables alone.
- What a call cannot foresee is a parameter of it: the addresses and keys that are refused (`Streaming.Faults`), the
  random ids of its chunks, and whether a commit goes through and a row can be read back. So each method says exactly
  when it succeeds, or what must have been refused if it fails.
- `Represents(t, lists)` says which ordered chunk list each owner has. While a completion is under way, a part's list
  starts at a later ordinal (`Listing.from`); between transactions every list starts at 0.
- A worker of the pipeline gets its recipe when it starts: what the libraries made of its buffer, the segment size of
  the search, and the blobs to upload to each backend (`Pipeline.Follows`). It uploads them one by one, in any order over
  the backends, and can finish exactly when all are there, or fail before that. Others may change the store between any
  two steps, other than the call's own blobs.
- The operations on the store are single steps (`ObjectStore.Step`). A put or part upload needs chunks that hold its data
  on blobs that are there and that no row refers to; blobs come from `Upload` steps and go with `Discard` steps.
  `Concurrent` has any number of calls run their pipelines against one store; it shows that each upload, each delete of a
  cleanup and each metadata write is such a step, in a state that allows it, so the guard is no hypothesis there.
  Addresses are never reused; `Store.used` has those handed out so far.
- `Refinement` compares the blobs that are there with all that were ever stored for the listed chunks (`full`), so that
  it can also say what is left of an object from which a delete has removed some blobs.
- `math.Ceil` on floating-point numbers is integer ceiling division, which it equals for lengths below 2^53.

## Where the code does not do what its text says

- The comment on `ChunkStream` (`src/shards3/internal/modules/storage/chunker/service.go:55-57`) says that a failed
  upload leaves no orphaned shards. A worker that fails after it has stored a blob leaves that blob behind. If every
  delete of the cleanup succeeds, what is left is exactly what failed workers had stored (`PipelineResults.LeftBehindIff`),
  and that can be something if and only if some buffer may be packed into at least two blobs (`PipelineRuns.LeakIff`),
  as is every buffer where a failure is to be tolerated (`PipelineRuns.ToleranceLeaks`).
- `CompleteMultipartUpload` (`src/shards3/internal/modules/storage/metadata/multipart.go:421-425`) reads the object back
  after its commit, and reports an error if that fails, although the object is there and the upload is gone. So an error
  does not mean that nothing changed, and repeating the call fails as well (`Manager.CompleteTwice`).
- `GetObject` (`src/shards3/internal/modules/s3/web/handlers_object.go:449-452`) sends an XML error document into the body
  of a response whose status and length have already been sent, when the object's stream breaks. The client then receives
  bytes that were never stored (`Response.SomeResponseLies`), and cannot always tell (`Response.LooksCompleteIff`). It
  receives nothing but the object's bytes if and only if no chunk that begins before the end of the range has too few
  readable segments, or fewer than 39 bytes are left when the stream breaks (`Response.ResponsesAre`). What the stream
  itself delivers is never wrong (`RangeRead.StreamsNeverLie`).
- `DeleteObject` (`src/shards3/internal/modules/storage/objectManager/object.go:103-118`) reports an error after it may
  have removed some blobs, and leaves the object listed. Such an object reads as promised if and only if enough segments
  of each chunk are still readable, and otherwise gives an error (`Promises.ReadsNeverLie`); `Damage.SomeObjectIsLost` is
  a run that loses one. Another delete can succeed exactly if no blob is missing (`Damage.RetryNeedsEveryBlob`), so the
  object stays until it is overwritten, which repairs it (`Promises.TouchedReadsAs`), or its bucket is deleted. No other
  object is affected (`Promises.OthersReadTheSame`).

## Model

| member | source | states |
|---|---|---|
| `Parity.GetShardParityCount` | src/shards3/internal/modules/storage/shard/service.go:55-74 | the counting loop stops for every d and every f < n, at f * ceil(d / (n - f)); that parity survives and no smaller one does |
| `Parity.NeededParityIsExact` | src/shards3/internal/modules/storage/shard/service.go:55-74 | at that parity the worst-case loss equals the parity exactly |
| `Parity.SmallerParityLoses` | src/shards3/internal/modules/storage/shard/service.go:63-72 | any smaller parity is below the worst-case loss |
| `Parity.ParityExistsIff` | src/shards3/internal/modules/storage/shard/service.go:55-74 | some parity survives if and only if f < n or there is no data, so the search ends exactly then |
| `Parity.WorstLossIsTight` | src/shards3/internal/modules/storage/shard/service.go:57-69 | any f of n backends hold at most f * (total / n) + min(f, total % n) segments, and the first f hold exactly that many |
| `Parity.EnoughSegmentsSurvive` | src/shards3/internal/modules/storage/shard/service.go:55-74 | whichever f backends fail, at least d segments are left |
| `Parity.SurvivesEveryFailure` | src/shards3/internal/modules/storage/shard/service.go:55-74 | a parity that covers the worst loss survives every choice of f failed backends |
| `Parity.FewerSegmentsFail` | src/shards3/internal/modules/storage/shard/service.go:55-74 | with a smaller parity, losing the first f backends leaves fewer than d segments |
| `SegmentSize.ChooseSegmentSize` | src/shards3/internal/modules/storage/shard/service.go:140-162 | the early-exit search returns the limit for data that fits it, and otherwise the largest size of least remainder among the limit and its allowed halvings |
| `SegmentSize.BestIsUnique` | src/shards3/internal/modules/storage/shard/service.go:140-162 | that description picks one size |
| `SegmentSize.CandidatesAre` | src/shards3/internal/modules/storage/shard/service.go:140-162 | the sizes examined are the limit divided by powers of two, the first ten of them that are at least 51200 bytes, besides the limit itself |
| `ErasureCode.FillRows` | src/shards3/internal/modules/storage/shard/service.go:104-113 | the row buffers are the zero-padded slices of the data, ceil(len / size) of them |
| `ErasureCode.EncodeParityShards` | src/shards3/internal/modules/storage/shard/service.go:95-120 | data rows followed by as many parity rows as the tolerance needs; fails exactly when the code does not support the counts |
| `ErasureCode.SegmentsRestore` | src/shards3/internal/modules/storage/shard/service.go:104-113 | gluing the data rows together and trimming gives the data back |
| `ErasureCode.SegmentsCount` | src/shards3/internal/modules/storage/shard/service.go:96 | there are ceil(len / size) segments |
| `XorCode.XorIsMDS` | src/shards3/internal/modules/storage/shard/service.go:100-118 | the hypothesis on the erasure code is met by the single-parity code |
| `Layout.Distribute` | src/shards3/internal/modules/storage/shard/service.go:169-194 | each backend gets its contiguous block of the even split, segment by segment |
| `Layout.AppendBlock` | src/shards3/internal/modules/storage/shard/service.go:186-193 | the inner loop gives one backend the next segments and advances the index |
| `Layout.TakeRun` | src/shards3/internal/modules/storage/shard/service.go:205-213 | the inner loop takes as many segments as fit |
| `Layout.Merge` | src/shards3/internal/modules/storage/shard/service.go:204-220 | greedy merging always advances, cuts the block into consecutive runs within the limit, and makes ceil(count / floor(limit / size)) blobs |
| `Layout.FewestBlobs` | src/shards3/internal/modules/storage/shard/service.go:196-221 | no contiguous grouping within the limit uses fewer blobs |
| `Sharding.SmallestLimit` | src/shards3/internal/modules/storage/shard/service.go:131-138 | the smallest limit of the backends, at most 2^63 - 1, or failure when one is unknown |
| `Sharding.MergeAll` | src/shards3/internal/modules/storage/shard/service.go:196-221 | every backend's block is merged under that backend's own limit, with the fewest blobs |
| `Sharding.UploadNext` | src/shards3/internal/modules/storage/shard/service.go:77-93 | one upload extends that backend's results by one; or it fails, only because a put was refused or a blob is over its limit, and extends none |
| `Sharding.UploadAll` | src/shards3/internal/modules/storage/shard/service.go:223-248 | however the uploads of the backends interleave, success leaves every backend's blobs stored in plan order, each on a new address of its own, and earlier blobs untouched; it fails only if a put is refused or a blob is over its limit |
| `Sharding.Gathered` | src/shards3/internal/modules/storage/shard/service.go:245-250 | the concatenated ranges cover all segments once, in ascending order, each on the backend whose block it lies in |
| `Sharding.BlobLength` | src/shards3/internal/modules/storage/shard/service.go:196-221 | each blob is (last - first + 1) * segment size long |
| `Sharding.ShardData` | src/shards3/internal/modules/storage/shard/service.go:123-251 | each error other than a failed upload is returned exactly in its case, and a failed upload only if a put was refused; on success the blobs hold one encoding of the data, partitioned over the backends, with the segment size of the search and as few blobs as each limit allows; existing blobs are never touched and every shard has a new address of its own |
| `Sharding.UploadsAreFewest` | src/shards3/internal/modules/storage/shard/service.go:169-248 | each backend's blobs are within its limit and as few as it allows |
| `Sharding.SizeForIsUnique` | src/shards3/internal/modules/storage/shard/service.go:131-162 | the segment size is determined by the backends' limits and the length |
| `Backends.BlobStore.PutShard` | src/shards3/internal/modules/storage/interfaces/discord.go:173-183 | stores a copy under a new name exactly if the backend exists, the blob is within its limit and the backend accepts it, and otherwise stores nothing |
| `Backends.BlobStore.GetShard` | src/shards3/internal/modules/storage/interfaces/discord.go:158-171 | reads exactly what is stored, or fails |
| `Backends.BlobStore.DeleteShard` | src/shards3/internal/modules/storage/interfaces/discord.go:185-195 | removes one blob exactly if it is there and the backend accepts that, and otherwise removes nothing |
| `Collecting.FillSlots` | src/shards3/internal/modules/storage/shard/service.go:264-277 | copies a blob's segments into the empty slots of its range and counts them; fails exactly when the range or the payload does not fit |
| `Collecting.FillSlot` | src/shards3/internal/modules/storage/shard/service.go:264-277 | one segment: refused when outside payload or total, skipped when already there, copied and counted otherwise |
| `Collecting.CollectShards` | src/shards3/internal/modules/storage/shard/service.go:254-301 | reads what it can, refuses bad payloads, needs d segments, reconstructs and joins the data rows |
| `Collecting.InvalidPayloadIff` | src/shards3/internal/modules/storage/shard/service.go:264-270 | collecting fails for an invalid payload if and only if some blob that can be read is too short for its range, or ranges beyond the total, whatever else can be read |
| `Collecting.DestroyShards` | src/shards3/internal/modules/storage/shard/service.go:303-311 | deletes in order and stops at the first blob that is missing, was named before, or that the backend refuses to delete; it succeeds exactly if there is none, and what is gone is exactly what comes before it |
| `Deleting.DeleteChunks` | src/shards3/internal/modules/storage/chunker/service.go:270-282 | the same for the shards of all chunks one after the other: succeeds exactly if every blob is there, on an address of its own, and no delete is refused; removes exactly the blobs before the first that cannot be deleted |
| `Deleting.CleanUp` | src/shards3/internal/modules/storage/chunker/service.go:134-138 | tries every chunk, whatever becomes of the others: a chunk whose blobs are its own, there, and not refused has none left; if that goes for every chunk, exactly their blobs are gone; nothing else is ever removed |
| `FaultTolerance.CollectOutcome` | src/shards3/internal/modules/storage/shard/service.go:254-301 | for blobs of one encoding, collecting yields the data if at least d distinct segments are readable, and fails otherwise |
| `FaultTolerance.OrderAndRepetitionDoNotMatter` | src/shards3/internal/modules/storage/shard/service.go:254-301 | permuting or repeating the shard descriptors changes nothing |
| `FaultTolerance.MaxLastOfCover` | src/shards3/internal/modules/storage/chunker/service.go:159-167 | the largest last index recovers the parity count |
| `FaultTolerance.OutcomeOfEncoding` | src/shards3/internal/modules/storage/shard/service.go:254-301 | whatever is left of an encoding's blobs and whichever backends are down: collecting gives the data if d distinct segments are readable and an error otherwise, never other bytes |
| `FaultTolerance.FailuresLeaveEnough` | src/shards3/internal/modules/storage/shard/service.go:55-301 | any at most f failed backends leave d distinct segments readable |
| `FaultTolerance.AnyFailuresAreSurvived` | src/shards3/internal/modules/storage/shard/service.go:55-301 | after a successful ShardData, any at most f failed backends leave the data collectable, with parity recomputed from the largest last index |
| `Chunks.ProcessChunk` | src/shards3/internal/modules/storage/chunker/service.go:141-178 | makes a chunk exactly if the libraries take the piece, every backend is known and no put is refused that it needs: compressed, encrypted with the given cipher and key, and sharded, each shard on a new address of its own; otherwise nothing but additions happened to the store |
| `Chunks.PackedHolds` | src/shards3/internal/modules/storage/chunker/service.go:141-217 | a chunk so made reads as its piece from whatever is left of its blobs if enough segments are readable, and not at all otherwise; and enough are readable under every tolerated failure |
| `Chunks.CollectChunk` | src/shards3/internal/modules/storage/chunker/service.go:184-212 | collect, trim, decrypt, decompress one chunk |
| `Chunks.LargestLast` | src/shards3/internal/modules/storage/chunker/service.go:161-166 | the loop finds the largest last index |
| `Chunks.CollectChunks` | src/shards3/internal/modules/storage/chunker/service.go:180-217 | the collecting loop returns the chunks' contents in order, or fails if one cannot be read |
| `Chunks.PiecesRead` | src/shards3/internal/modules/storage/chunker/service.go:180-217 | a list reads as its pieces if enough of every chunk is readable, and not at all otherwise |
| `Chunks.ReadChunksAppend` | src/shards3/internal/modules/storage/chunker/service.go:180-217 | reading a concatenation of chunk lists is concatenating what they read as |
| `Chunks.HoldsFrame` | src/shards3/internal/modules/storage/chunker/service.go:180-217 | what a chunk reads as depends only on the blobs it refers to |
| `Chunks.ConfiguredIsPossible` | src/shards3/cmd/shards3/main.go:38-40 | the start-up conditions and the hypotheses on the libraries can be met together |
| `Planning.PlanExists` | src/shards3/internal/modules/storage/shard/service.go:123-221 | for any data and segment size that the erasure code takes there is a plan: every backend's block merged under its own limit, into as few blobs as that allows |
| `Planning.FinishedEncodes` | src/shards3/internal/modules/storage/shard/service.go:223-250 | once every planned blob has been uploaded, in whatever order over the backends, the blobs are an encoding of the data |
| `Pipeline.RunKeepsInv` | src/shards3/internal/modules/storage/chunker/service.go:58-138 | every step of every interleaving of reader, workers, cleanup and others keeps the invariant; what a worker has stored is the beginning of its plan, and that a completed chunk holds its piece is derived from its finished uploads |
| `PipelineResults.OwnStepsLeaveTheirs` | src/shards3/internal/modules/storage/chunker/service.go:58-138 | no step of a call adds, removes or changes a blob that is not its own |
| `PipelineResults.SuccessIsComplete` | src/shards3/internal/modules/storage/chunker/service.go:58-128 | a run that succeeds has every ordinal, chunk i holds the i-th slice on new blobs of its own, total and digest saw all bytes in order; others may add blobs, and remove their own, at any time |
| `PipelineResults.SuccessReadsBack` | src/shards3/internal/modules/storage/chunker/service.go:58-128 | what it returns reads as the input from whatever is left if enough is readable, and not at all otherwise; every tolerated failure leaves enough |
| `PipelineResults.FailureCleansUp` | src/shards3/internal/modules/storage/chunker/service.go:112-138 | a run that fails has deleted every blob of every completed chunk if its deletes succeeded |
| `PipelineResults.LeftBehindIff` | src/shards3/internal/modules/storage/chunker/service.go:55-58 | a failed run whose deletes succeeded leaves exactly the blobs that failed workers had stored, so it leaves no orphan if and only if no failed worker had stored one |
| `PipelineRuns.RecipeIff` | src/shards3/internal/modules/storage/chunker/service.go:141-178 | a worker can make a chunk of a buffer if and only if the libraries compress and encrypt it, and the erasure code takes it at the segment size that the limits ask for |
| `PipelineRuns.LeakIff` | src/shards3/internal/modules/storage/chunker/service.go:55-58 | for every input whose slices the libraries pack: some run fails, with every delete of its cleanup succeeding, and leaves a blob behind if and only if some buffer may be packed into at least two blobs; contrary to the comment |
| `PipelineRuns.ToleranceLeaks` | src/shards3/internal/modules/storage/chunker/service.go:55-58 | with a positive tolerance, every non-empty input that the libraries pack can leave a blob behind: one upload, and then a failure |
| `PipelineRuns.SomeRunSucceeds` | src/shards3/internal/modules/storage/chunker/service.go:58-128 | for every input whose slices the libraries pack, some run of the call's own steps succeeds, with the searched segment size and the merged blobs |
| `PipelineResults.CancelledRunsFail` | src/shards3/internal/modules/storage/chunker/service.go:78-119 | leaving the read loop by cancellation always ends in an error |
| `PipelineResults.FailureStopsTheReader` | src/shards3/internal/modules/storage/chunker/service.go:78 | once the loop has been checked with a failure recorded, no buffer is read any more, whatever steps follow |
| `PipelineResults.ConcurrencyIsBounded` | src/shards3/internal/modules/storage/chunker/service.go:59-64 | at most max(1, concurrency) workers are ever active |
| `PipelineResults.NoDeadlock` | src/shards3/internal/modules/storage/chunker/service.go:58-128 | until the call has returned, some step of its own is possible that does not need a worker to fail which could go on |
| `PipelineResults.EveryRunEnds` | src/shards3/internal/modules/storage/chunker/service.go:58-128 | every schedule, fair or not, uploads included and with others acting in between, makes the call return |
| `Ordering.SortIsUnique` | src/shards3/internal/modules/storage/metadata/shards.go:14-40 | ORDER BY over distinct ranks has one result |
| `Paging.Limited` | src/shards3/internal/modules/storage/metadata/objects.go:85-88 | fetching max + 1 rows: a page of at most max, and hasMore exactly when there are more |
| `Paging.ListAllObjects` | src/shards3/internal/modules/storage/metadata/objects.go:39-90 | walking the pages until hasMore is false yields every row once, in order, in max(1, ceil(rows / max)) requests |
| `Paging.PageAdvances` | src/shards3/internal/modules/s3/web/handlers_multipart.go:529-531 | a page of parts is the next piece of the listing, and one past its last number is a marker from which exactly the rest is listed |
| `Listings.ListBucket` | src/shards3/internal/modules/storage/metadata/objects.go:39-90 | walking the pages yields every key of the bucket that matches and sorts after the start, once, in ascending order of text, in max(1, ceil(keys / max)) requests; from the empty start that is every matching key but the empty one |
| `Listings.BeforeIff` | src/shards3/internal/modules/storage/metadata/objects.go:45-47 | the order of text: one key is before another if and only if it is a proper beginning of it, or has the smaller character where they first differ |
| `Listings.ListUpload` | src/shards3/internal/modules/storage/metadata/multipart.go:273-319 | asking ListParts for page after page, with the last number + 1 as the marker, yields every part of the upload from the first number on, once, in ascending order, in max(1, ceil(parts / max)) requests |
| `Listings.KeysRank` | src/shards3/internal/modules/storage/metadata/objects.go:45-47 | text order tells the keys of a bucket apart |
| `Representation.ChunksReadBack` | src/shards3/internal/modules/storage/metadata/chunks.go:71-107 | reading an object's or a part's chunks returns the stored list: order, shard ranges, cipher, key id and counts |
| `Representation.ShardsReadBack` | src/shards3/internal/modules/storage/metadata/shards.go:14-40 | a chunk's shard rows, ordered by first, are its shards |
| `Representation.InsertShardsSucceeds` | src/shards3/internal/modules/storage/metadata/shards.go:42-54 | inserting new shard rows violates no key and adds exactly those rows |
| `Representation.EmptyRepresents` | src/shards3/internal/modules/storage/metadata/chunks.go:129-137 | an owner without chunk rows has an empty list |
| `Representation.InsertRepresents` | src/shards3/internal/modules/storage/metadata/chunks.go:111-127 | inserting a chunk at its owner's next ordinal violates no constraint and appends it |
| `Representation.DeleteRepresents` | src/shards3/internal/platform/db/db.go:104-133 | deleting owners' chunks cascades to exactly their shards |
| `Representation.MoveRepresents` | src/shards3/internal/modules/storage/metadata/multipart.go:403-412 | re-parenting a part's first chunk to the object's next ordinal violates no unique index, foreign key or owner check |
| `Metadata.InsertChunksRepresents` | src/shards3/internal/modules/storage/metadata/chunks.go:129-150 | the insert loop succeeds exactly when ids are new and keys known, and then appends the chunks |
| `Metadata.PutObjectConsistent` | src/shards3/internal/modules/storage/metadata/objects.go:94-142 | an upsert replaces the object's row and chunk list and nothing else; it is rejected exactly for a used id or an unknown key |
| `Metadata.PutPartConsistent` | src/shards3/internal/modules/storage/metadata/multipart.go:190-229 | a part upload replaces that part's row and chunk list and nothing else |
| `Metadata.CreateUploadConsistent` | src/shards3/internal/modules/storage/metadata/multipart.go:29-63 | opening an upload succeeds exactly for a new id and changes no list |
| `Metadata.CreateBucketConsistent` | src/shards3/internal/modules/storage/metadata/bucket.go:21-35 | a new bucket changes no list |
| `Metadata.KeyConsistent` | src/shards3/internal/modules/storage/encryption/kms.go:110-137 | a new key changes no list |
| `Metadata.DeleteUploadsConsistent` | src/shards3/internal/modules/storage/metadata/multipart.go:168-186 | aborting removes the parts' lists and nothing else |
| `Metadata.DeleteObjectConsistent` | src/shards3/internal/modules/storage/metadata/objects.go:17-37 | deleting an object removes its list and nothing else |
| `Metadata.DeleteBucketConsistent` | src/shards3/internal/modules/storage/metadata/bucket.go:72-91 | deleting a bucket removes its objects' and its uploads' lists and nothing else |
| `Metadata.ConsistentIsInOrder` | src/shards3/internal/platform/db/db.go:71-141 | in the tables' terms: one existing owner per chunk, ordinals exactly 0 to k-1, no orphaned shard row, shard ranges that partition the segments |
| `Multipart.CompleteConsistent` | src/shards3/internal/modules/storage/metadata/multipart.go:324-426 | completion succeeds exactly for an upload with a part to take; the object's list is the concatenation in ascending part number, size and ETag come from the parts, nothing else changes |
| `Multipart.MoveParts` | src/shards3/internal/modules/storage/metadata/multipart.go:403-415 | no update of the nested loop violates a constraint |
| `Multipart.CompleteRepresents` | src/shards3/internal/modules/storage/metadata/multipart.go:403-419 | the final cascade deletes no chunk that was handed over |
| `Multipart.CompletedObjectReads` | src/shards3/internal/modules/storage/metadata/multipart.go:324-426 | the completed object's chunks read back as the parts' chunks in ascending part order |
| `Multipart.CompletionLeavesOthers` | src/shards3/internal/modules/storage/metadata/multipart.go:324-426 | all other objects' and uploads' chunks read as before |
| `Multipart.TakenAscends` | src/shards3/internal/modules/storage/metadata/multipart.go:335-341 | the parts taken are in ascending order, each once |
| `Multipart.NothingDroppedIff` | src/shards3/internal/modules/storage/metadata/multipart.go:335-341 | no part is dropped if and only if all numbers are positive and there are at most 10000 |
| `Multipart.AdmittedPartsAreAllTaken` | src/shards3/internal/modules/s3/web/handlers_multipart.go:95 | with the numbers the HTTP layer admits, nothing is dropped |
| `Multipart.AdmittedUploadsCompleteWhole` | src/shards3/internal/modules/storage/metadata/multipart.go:324-426 | with numbers from 1 to 10000, a completed object's chunks read back as those of all the upload's parts, in ascending number |
| `Multipart.BigEndianDecodes` | src/shards3/internal/modules/storage/metadata/multipart.go:351-353 | the eight ETag bytes determine the ETag |
| `Multipart.EtagBytesInjective` | src/shards3/internal/modules/storage/metadata/multipart.go:343-361 | the combined digest's input tells any two lists of part ETags apart |
| `Database.InsertShardRows` | src/shards3/internal/modules/storage/metadata/shards.go:42-54 | the loop equals inserting the rows one after the other, stopping at the first violation |
| `Database.InsertChunkRows` | src/shards3/internal/modules/storage/metadata/chunks.go:129-150 | likewise for chunks with their shards, ordinals counting from 0 |
| `Database.ReassignChunks` | src/shards3/internal/modules/storage/metadata/multipart.go:403-415 | the nested loop with one running ordinal equals one pass over the concatenated ids |
| `Database.GatherRows` | src/shards3/internal/modules/storage/metadata/multipart.go:343-361 | total size and digest input over the parts |
| `Database.GatherChunks` | src/shards3/internal/modules/storage/metadata/multipart.go:355-359 | the parts' chunk ids, in part order |
| `Database.Database.CreateKey` | src/shards3/internal/modules/storage/encryption/kms.go:110-137 | adds a key under the next id, which was never used before, exactly if the insert goes through, and otherwise changes nothing |
| `Database.Database.UpsertObject` | src/shards3/internal/modules/storage/metadata/objects.go:94-142 | commits the whole transaction exactly if no statement violates a constraint and the commit goes through, otherwise rolls back, and keeps the tables consistent |
| `Database.Database.PutPart` | src/shards3/internal/modules/storage/metadata/multipart.go:190-229 | commits the whole transaction exactly if no statement violates a constraint and the commit goes through, otherwise rolls back, and keeps the tables consistent |
| `Database.Database.CreateMultipartUpload` | src/shards3/internal/modules/storage/metadata/multipart.go:29-63 | commits exactly if no statement violates a constraint and the commit goes through, otherwise rolls back, and keeps the tables consistent |
| `Database.Database.AbortMultipartUpload` | src/shards3/internal/modules/storage/metadata/multipart.go:168-186 | deletes with cascade exactly if the upload exists and the commit goes through, and otherwise reports an error and changes nothing |
| `Database.Database.CompleteMultipartUpload` | src/shards3/internal/modules/storage/metadata/multipart.go:324-426 | the transaction is committed exactly if it can be and the commit goes through, and otherwise nothing changes; the object is reported exactly if it was committed and can then be read back, so a committed completion may report an error |
| `Multipart.CompletedIsGone` | src/shards3/internal/modules/storage/metadata/multipart.go:417-425 | a completed upload is gone, so there is nothing left to complete again |
| `Database.Database.DeleteObject` | src/shards3/internal/modules/storage/metadata/objects.go:17-37 | deletes with cascade exactly if the object exists and the commit goes through, and otherwise reports an error and changes nothing |
| `Database.Database.CreateBucket` | src/shards3/internal/modules/storage/metadata/bucket.go:21-35 | adds the bucket exactly if there is none of that name and the commit goes through, and otherwise reports an error and changes nothing |
| `Database.Database.DeleteBucket` | src/shards3/internal/modules/storage/metadata/bucket.go:72-91 | deletes with cascade exactly if the bucket exists and the commit goes through, and otherwise reports an error and changes nothing |
| `Integrity.InsertChunkIff` | src/shards3/internal/platform/db/db.go:104-121 | on tables that satisfy every constraint, a chunk row with a new id is rejected if and only if the tables with it would violate one: owner, key, owner check or ordinal |
| `Integrity.ReassignChunkIff` | src/shards3/internal/modules/storage/metadata/multipart.go:403-412 | likewise for the update that hands a chunk over |
| `Integrity.TransactionKeeps` | src/shards3/internal/platform/db/db.go:71-141 | every transaction, on any tables that satisfy the constraints, leaves tables that satisfy them, cascades included |
| `Integrity.ReachableSatisfies` | src/shards3/internal/platform/db/db.go:71-141 | in every reachable state all foreign keys, the owner check and both unique indexes hold |
| `References.StepReferences` | src/shards3/internal/modules/storage/metadata/chunks.go:111-150 | no operation makes the rows refer to a blob that they did not refer to before, other than those the operation itself brings |
| `References.UnlistedIff` | src/shards3/internal/modules/storage/metadata/chunks.go:71-107 | which blobs no query of any owner's chunks returns, in terms of the represented lists |
| `ObjectStore.HeldReads` | src/shards3/internal/modules/storage/chunker/service.go:180-217 | from whatever is left of the blobs: the data if enough of every chunk is readable, otherwise an error |
| `ObjectStore.IntactIsEnough` | src/shards3/internal/modules/storage/chunker/service.go:180-217 | while no blob is missing, every tolerated failure leaves enough |
| `ObjectStore.IntactAppend` | src/shards3/internal/modules/storage/chunker/service.go:180-217 | concatenated lists hold concatenated contents |
| `Refinement.StepRelated` | src/shards3/internal/modules/storage/objectManager/object.go:31-118 | every operation, successful or not, deletes that give up included, keeps tables and blobs related to what clients are promised |
| `Refinement.PutRelated` | src/shards3/internal/modules/storage/objectManager/object.go:31-56 | a put or update sets exactly its key |
| `Refinement.DeleteRelated` | src/shards3/internal/modules/storage/objectManager/object.go:103-118 | a delete removes its key, and its blobs belong to no other object or part |
| `Refinement.DeleteFailsRelated` | src/shards3/internal/modules/storage/objectManager/object.go:110-117 | a delete that gives up leaves the tables and every other object and part as they are |
| `Refinement.UploadPartRelated` | src/shards3/internal/modules/storage/objectManager/multipart.go:29-60 | a part upload sets that part's contents and no object |
| `Refinement.AbortRelated` | src/shards3/internal/modules/storage/metadata/multipart.go:168-186 | an abort removes the upload's parts and no object |
| `Refinement.DeleteBucketRelated` | src/shards3/internal/modules/storage/metadata/bucket.go:72-91 | a bucket delete removes exactly that bucket's keys and uploads |
| `Refinement.OtherwiseRelated` | src/shards3/internal/modules/storage/chunker/service.go:58-138 | what streams upload and clean up, and operations that fail otherwise, change nothing promised |
| `Refinement.CompleteRelated` | src/shards3/internal/modules/storage/metadata/multipart.go:324-426 | a completion sets its target to the parts' contents in part order, with matching size and ETag |
| `Refinement.ReachableRelated` | src/shards3/internal/platform/db/db.go:71-141 | in every reachable state the tables are in order and the relation holds |
| `Promises.ReadsArePromised` | src/shards3/internal/modules/storage/objectManager/object.go:31-118 | after every run, with any tolerated set of backends down, every key reads as the map from (bucket, key) to bytes says, unless a delete of it gave up since it was last written |
| `Promises.ReadsNeverLie` | src/shards3/internal/modules/storage/objectManager/object.go:31-118 | after every run, whichever and however many backends are down: a key reads as promised if and only if enough segments of each of its chunks are readable, and otherwise gives an error; its row has the promised size and ETag |
| `Promises.OthersReadTheSame` | src/shards3/internal/modules/storage/objectManager/multipart.go:29-77 | a step changes what reads as what only for the keys it names, and only if its transaction commits or it is a delete that gives up; uploads and cleanup of streams, part uploads, aborts, opened uploads and whatever does not commit change nothing readable, whichever backends are down |
| `Promises.TouchedReadsAs` | src/shards3/internal/modules/storage/objectManager/object.go:31-118 | what the keys an operation names read as once it has committed, whatever it then reports; so a put or a completion repairs an object that a delete has damaged |
| `Promises.SucceedsIff` | src/shards3/internal/platform/db/db.go:71-141 | in every reachable state, when each operation succeeds; no schema constraint rejects one for another reason |
| `Promises.CompletionsReadWhole` | src/shards3/internal/modules/storage/objectManager/multipart.go:62-73 | in every reachable state, with any tolerated set of backends down: an upload whose numbers are from 1 to 10000 completes, and its object then reads as the contents of all its parts, in ascending number |
| `Damage.GivingUpMayLose` | src/shards3/internal/modules/storage/objectManager/object.go:110-117 | in every reachable state, a delete that gives up may leave any non-empty object listed, unreadable and undeletable |
| `Damage.SomeObjectIsLost` | src/shards3/internal/modules/storage/objectManager/object.go:110-117 | a concrete run in which that happens, for any non-empty data |
| `Damage.RetryNeedsEveryBlob` | src/shards3/internal/modules/storage/shard/service.go:303-311 | after a delete that gave up, another can succeed exactly if no blob of the object is missing |
| `Concurrent.EveryRunIsAtomic` | src/shards3/internal/modules/storage/objectManager/object.go:31-118 | in every run of any number of calls whose readers, workers, uploads and cleanups interleave with each other and with all other operations, the store is in a state that a run of single steps reaches, one step for each call's metadata write; the only hypothesis is a configured system |
| `Concurrent.ConcurrentReads` | src/shards3/internal/modules/storage/objectManager/object.go:31-118 | so after every such run, every key reads as the map says under tolerated failures, unless a delete of it gave up, and otherwise as promised or not at all |
| `Concurrent.CommitPublishes` | src/shards3/internal/modules/storage/objectManager/object.go:37-53 | when a call whose stream has succeeded writes its metadata, its key reads as exactly the bytes the call was given |
| `Concurrent.UnseenUntilCommit` | src/shards3/internal/modules/storage/objectManager/object.go:37-53 | until then nothing a call does, starting, uploading, cleaning up or failing, changes what any key reads as |
| `Concurrent.CallsRunTheirPipelines` | src/shards3/internal/modules/storage/chunker/service.go:58-138 | what a call sees of such a run is a run of its own pipeline in which everything else is steps of others, so every result about the pipeline holds of every call |
| `Examples.SomeCallCommits` | src/shards3/internal/modules/storage/objectManager/object.go:31-56 | such runs exist: for any non-empty data, a call starts, streams the data and can write its metadata |
| `Confluence.LastUploadsDecide` | src/shards3/internal/modules/storage/metadata/multipart.go:190-229 | whatever other operations run meanwhile, an open upload's parts are the earlier ones overlaid by the last successful upload of each number |
| `Confluence.AssembledLocal` | src/shards3/internal/modules/storage/metadata/multipart.go:330-361 | content, size and combined ETag depend only on the upload's own parts |
| `Confluence.CompletesAfter` | src/shards3/internal/modules/storage/metadata/multipart.go:324-426 | after any run that leaves the upload open, when completion succeeds and what it yields, in terms of the last uploads only |
| `Confluence.UploadsAreConfluent` | src/shards3/internal/modules/storage/metadata/multipart.go:190-426 | two runs, with any other operations in between, that end with the same last uploads complete alike: same outcome, bytes, size and combined ETag |
| `Slices.ChopSplits` | src/shards3/internal/modules/storage/chunker/service.go:77-96 | cutting the data into slices of the chunk size is cutting what comes before any whole number of slices and what comes after |
| `Streaming.StreamsNext` | src/shards3/internal/modules/storage/chunker/service.go:77-110 | one round keeps what a stream has so far: the completed chunks hold the first slices, one each, every chunk and every shard on addresses of its own |
| `Manager.ObjectManager.ChunkStream` | src/shards3/internal/modules/storage/chunker/service.go:58-138 | in the schedule that runs one worker at a time: it makes one chunk of each slice of the data, on new addresses, with the given ids and with a cipher a new key each, and succeeds when no slice is left; it fails only if the libraries do not take a slice, or a put or a new key is refused; then every completed chunk whose deletes are accepted has no blob left, and nothing else is removed |
| `Manager.ObjectManager.PutObject` | src/shards3/internal/modules/storage/objectManager/object.go:31-56 | streams the data and writes the metadata: keys are created, blobs are uploaded, and then it is the put step exactly if the stream succeeded, the chunk ids are new and the commit goes through; otherwise it fails, and after a failed stream is cleaned up as for `ChunkStream` |
| `Manager.ObjectManager.UploadPart` | src/shards3/internal/modules/storage/objectManager/multipart.go:29-60 | looks up the upload, streams the data and writes the metadata: keys are created, blobs are uploaded, and then it is the part upload step exactly if the stream succeeded, the chunk ids are new and the commit goes through; for an unknown upload nothing happens |
| `Manager.ObjectManager.CreateMultipartUpload` | src/shards3/internal/modules/storage/objectManager/multipart.go:15-27 | is the create step exactly if the id is new and the commit goes through, and otherwise changes nothing |
| `Manager.ObjectManager.CompleteMultipartUpload` | src/shards3/internal/modules/storage/objectManager/multipart.go:62-73 | is the complete step exactly if that can succeed and the commit goes through, and otherwise changes nothing; it reports success only if the object can be read back as well |
| `Manager.CompleteTwice` | src/shards3/internal/modules/storage/metadata/multipart.go:421-425 | a completion that commits and cannot be read back reports an error, and so does every repetition, although the object is there |
| `Manager.ObjectManager.AbortMultipartUpload` | src/shards3/internal/modules/storage/objectManager/multipart.go:75-77 | is the abort step exactly if the upload exists and the commit goes through, and otherwise changes nothing |
| `Manager.ObjectManager.DeleteObject` | src/shards3/internal/modules/storage/objectManager/object.go:103-118 | is the delete step exactly if the object can be read from the database, every one of its blobs is there and can be deleted, and the commit goes through; otherwise it is a delete that gave up |
| `RangeRead.CopyRange` | src/shards3/internal/modules/storage/object/service.go:98-122 | the body is the wanted slice of what the chunk stream delivers; it breaks only if the range reaches a chunk that cannot be read |
| `RangeRead.StreamRange` | src/shards3/internal/modules/storage/object/service.go:89-125 | normalising and copying; an end of 0 stands for the whole object |
| `RangeRead.DeliversAll` | src/shards3/internal/modules/storage/chunker/service.go:221-268 | the stream delivers everything exactly when the collector can read every chunk |
| `RangeRead.StreamsSlice` | src/shards3/internal/modules/storage/object/service.go:89-125 | for a readable object and a range within it, the stream is exactly that slice and ends without an error |
| `RangeRead.StreamsWhole` | src/shards3/internal/modules/storage/object/service.go:89-125 | with begin and end 0 it is the whole object |
| `RangeRead.ServeObject` | src/shards3/internal/modules/s3/web/handlers_object.go:382-442 | what GetObject answers to a Range header is the function that ServesCorrectly is about |
| `RangeRead.ServesCorrectly` | src/shards3/internal/modules/s3/web/handlers_object.go:382-442 | every response is correct: whole object, exactly the requested slice with its Content-Length and Content-Range, or a refusal of a header that asks for nothing in bounds |
| `RangeRead.RequestServed` | src/shards3/internal/modules/s3/web/handlers_object.go:382-442 | a request `bytes=first-last` for a readable object is answered with exactly these bytes if first <= last < size, and refused otherwise |
| `RangeRead.RequestsAreServed` | src/shards3/internal/modules/s3/web/handlers_object.go:382-442 | in every reachable state, with any tolerated backends down, every request for a stored object that no delete has damaged gets such a response |
| `RangeRead.StreamsNeverLie` | src/shards3/internal/modules/s3/web/handlers_object.go:382-447 | whichever backends are down and whatever was removed: no stream behind a response contains a wrong byte, and one that is cut short ends with an error |
| `RangeRead.DeliversPrefix` | src/shards3/internal/modules/storage/chunker/service.go:221-268 | the stream delivers a prefix of the data, and all of it if it is complete |
| `Response.Connection.SendObject` | src/shards3/internal/modules/s3/web/handlers_object.go:449-452 | what is sent: the stream, and after a stream that breaks as much of the error document as the declared length admits |
| `Response.CleanIff` | src/shards3/internal/modules/storage/object/service.go:89-125 | the stream of a range ends normally if and only if enough can be read of every chunk that begins before the end of the range |
| `Response.NothingElseIff` | src/shards3/internal/modules/s3/web/errors.go:16-34 | nothing but the stream is sent if and only if it does not break, or fewer bytes are left than the XML declaration has |
| `Response.DeclarationIs` | src/shards3/internal/modules/s3/web/errors.go:32 | the declaration is the 39 bytes of its text |
| `Response.ThenTheDocument` | src/shards3/internal/modules/s3/web/errors.go:32-33 | whatever follows a stream that broke is the beginning of the declaration followed by the document |
| `Response.LooksCompleteIff` | src/shards3/internal/modules/s3/web/errors.go:16-34 | a response whose stream has broken still has its declared length if and only if what was left is exactly the declaration, or the declaration and the document |
| `Response.ResponsesAre` | src/shards3/internal/modules/s3/web/handlers_object.go:382-452 | in every reachable state, for every request for a stored object: what its stream may contain, exactly when it breaks, and exactly when anything else is sent |
| `Response.FirstChunkMissing` | src/shards3/internal/modules/s3/web/handlers_object.go:444-452 | if too little of the first chunk can be read, a request for the whole object is answered with its length and an XML document instead of its bytes |
| `Response.SomeResponseLies` | src/shards3/internal/modules/s3/web/handlers_object.go:444-452 | a concrete run in which that happens, for any data of at least 39 bytes that does not itself begin like a document |
| `RangeHeader.SplitComplete` | src/shards3/internal/modules/s3/web/requests.go:281-283 | whatever matches the regular expression is split into its captures |
| `RangeHeader.SplitSound` | src/shards3/internal/modules/s3/web/requests.go:281-286 | nothing else is split |
| `RangeHeader.TrimSplits` | src/shards3/internal/modules/s3/web/requests.go:283 | trimming takes white space off both ends and nothing else |
| `RangeHeader.PrintParses` | src/shards3/internal/modules/s3/web/handlers_object.go:440-442 | a printed number parses back, and has no leading zeros |
| `RangeHeader.Decimal` | src/shards3/internal/modules/s3/web/requests.go:288-296 | numbers are decimal: what stands before n digits counts 10^n times |
| `RangeHeader.AcceptedIff` | src/shards3/internal/modules/s3/web/handlers_object.go:384-394 | a header is accepted if and only if it is well formed with first <= last < size, as [first, last + 1): an accepted end is never 0 and never wrapped |
| `RangeHeader.RequestAccepted` | src/shards3/internal/modules/s3/web/handlers_object.go:384-394 | `bytes=first-last`, or the same with blanks for the equals sign, is accepted as [first, last + 1) if and only if first <= last < size, for sizes below 2^63 |
| `RangeHeader.ContentRangeRoundTrip` | src/shards3/internal/modules/s3/web/handlers_object.go:440-442 | for 0 <= start < end <= total < 2^63 the Content-Range is `bytes start-(end-1)/total` in decimal, and parses back to start, end and total |

## Left out

- Reed-Solomon, zstd, the ciphers, xxhash, uuid and SQLite themselves: they are parameters and hypotheses.
- Checksums, verification times and other timestamps; they are stored and shown but decide nothing modelled here.
- Overflow of sizes and indices in Go's fixed-width integers, except in the Range header, where it is modelled.
- Blobs of overwritten objects and of aborted or completed-over uploads: the code does not remove them, and the model keeps them without saying more.
- Completions and deletes that overlap with other operations: they are single steps, also in `Concurrent`. In the source a completion reads the parts before its transaction, and a delete removes blobs one after the other.
- A source reader that itself reports an unexpected end of file: reads end full, at the end of the input, or with another error.
- PipelineResults.NoDeadlock: it does not say that a backend call returns.
- Manager.ObjectManager.ChunkStream: runs one worker at a time; all other schedules are in `Pipeline` and `Concurrent`. That a put was refused means that an address is refused which the backend might have handed out since the call began, because parallel uploads take them in any order.
- Sharding.ShardData: says the same of a failed upload.
- Promises.SucceedsIff: for puts and part uploads the condition names the chunk ids and keys, which clients do not see.
- RangeRead.CopyRange: `io.CopyN` through two pipes is modelled by its effect, one chunk at a time; read-ahead of the pipe is not.
- Listing of uploads by markers, prefix and delimiter matching, and page 0 of listings: pages start at 1 over rows already selected.
- Reads by part number, conditional headers, suffix and open-ended ranges, the part list of the completion request.
- Bucket listings and statistics, request signing, XML, the dashboard, configuration files, and the network and disk code of the backends.
