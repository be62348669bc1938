/** The constraints of the schema, said of whole tables: a statement is rejected exactly if it would violate one. */
module Integrity {
  import opened Base
  import opened Sharding
  import opened Chunks
  import opened Schema
  import opened Representation
  import opened Metadata
  import opened Multipart
  import opened ObjectStore

  /** A chunk belongs to an object or to an upload, its owner and its key exist. A part number may be missing. */
  ghost predicate RowIntact(t: Tables, row: ChunkRow) {
    && (row.objectKey.Some? <==> row.uploadId.None?)
    && (OwnerOf(row).Some? ==> OwnerExists(t, OwnerOf(row).value))
    && (row.body.kmsKey.Some? ==> row.body.kmsKey.value in t.kmsKeys)
  }

  /** Two chunks of one owner have different ordinals. */
  ghost predicate OrdinalsDiffer(a: ChunkRow, b: ChunkRow) {
    OwnerOf(a).Some? && OwnerOf(a) == OwnerOf(b) ==> a.ordinal != b.ordinal
  }

  ghost predicate RowsIntact(t: Tables) {
    && (forall x {:trigger t.chunks[x]} :: x in t.chunks ==> RowIntact(t, t.chunks[x]))
    && (forall x, y {:trigger t.chunks[x], t.chunks[y]} ::
          x in t.chunks && y in t.chunks && x != y ==> OrdinalsDiffer(t.chunks[x], t.chunks[y]))
  }

  /** No constraint is violated. */
  ghost predicate Satisfied(t: Tables) {
    && ParentsExist(t) && RowsIntact(t)
    && (forall k :: k in t.shards ==> k.chunk in t.chunks)
  }

  /** For rows that belong somewhere, the unique indexes are about the owner and the ordinal. */
  lemma SameSlotIff(a: ChunkRow, b: ChunkRow)
    requires (a.objectKey.Some? <==> a.uploadId.None?) && (b.objectKey.Some? <==> b.uploadId.None?)
    ensures SameSlot(a, b) <==> !OrdinalsDiffer(a, b)
  {
  }

  function WithRow(t: Tables, id: nat, row: ChunkRow): Tables {
    t.(chunks := t.chunks[id := row])
  }

  /** What the constraints on chunk rows come to. */
  lemma RowAllowedIff(t: Tables, id: nat, row: ChunkRow)
    requires Satisfied(t)
    ensures SlotAllowed(t, id, row) && KeyAllowed(t, row.body) <==> Satisfied(WithRow(t, id, row))
  {
    var u := WithRow(t, id, row);
    if row.objectKey.Some? <==> row.uploadId.None? {
      forall x | x in t.chunks && x != id
        ensures SameSlot(t.chunks[x], row) <==> !OrdinalsDiffer(t.chunks[x], row)
      {
        assert RowIntact(t, t.chunks[x]);
        SameSlotIff(t.chunks[x], row);
      }
      if Satisfied(u) {
        assert RowIntact(u, u.chunks[id]);
        forall x | x in t.chunks && x != id
          ensures OrdinalsDiffer(t.chunks[x], row)
        {
          assert OrdinalsDiffer(u.chunks[x], u.chunks[id]);
        }
      }
    } else {
      assert !RowIntact(u, u.chunks[id]);
    }
  }

  /** INSERT INTO chunks, for an id that is not in use. */
  lemma InsertChunkIff(t: Tables, id: nat, row: ChunkRow)
    requires Satisfied(t) && id !in t.chunks
    ensures InsertChunkRow(t, id, row) == if Satisfied(WithRow(t, id, row)) then Some(WithRow(t, id, row)) else None
  {
    RowAllowedIff(t, id, row);
  }

  /** UPDATE chunks: the chunk moves to the object, if that has none with this ordinal. */
  lemma ReassignChunkIff(t: Tables, id: nat, key: string, ordinal: nat)
    requires Satisfied(t) && id in t.chunks
    ensures var row := t.chunks[id].(objectKey := Some(key), uploadId := None, partNumber := None, ordinal := ordinal);
            ReassignChunkRow(t, id, key, ordinal)
            == if Satisfied(WithRow(t, id, row)) then Some(WithRow(t, id, row)) else None
  {
    var row := t.chunks[id].(objectKey := Some(key), uploadId := None, partNumber := None, ordinal := ordinal);
    assert RowIntact(t, t.chunks[id]);
    RowAllowedIff(t, id, row);
  }

  /** INSERT INTO shards, for a range that is not in use. */
  lemma InsertShardIff(t: Tables, k: ShardKey, row: ShardRow)
    requires Satisfied(t) && k !in t.shards
    ensures var u := t.(shards := t.shards[k := row]);
            InsertShardRow(t, k, row) == if Satisfied(u) then Some(u) else None
  {
    var u := t.(shards := t.shards[k := row]);
    assert k in u.shards && u.chunks == t.chunks;
  }

  /** The rows of objects, parts and uploads. */
  lemma UpsertObjectIff(t: Tables, k: ObjectKey, row: ObjectRow)
    requires Satisfied(t)
    ensures var u := t.(objects := t.objects[k := row]);
            UpsertObjectRow(t, k, row) == if Satisfied(u) then Some(u) else None
  {
    var u := t.(objects := t.objects[k := row]);
    assert k in u.objects;
    if k.bucket in t.buckets {
      RowsStay(t, u);
    }
  }

  lemma UpsertPartIff(t: Tables, p: PartKey, row: PartRow)
    requires Satisfied(t)
    ensures var u := t.(parts := t.parts[p := row]);
            UpsertPartRow(t, p, row) == if Satisfied(u) then Some(u) else None
  {
    var u := t.(parts := t.parts[p := row]);
    assert p in u.parts;
    if p.upload in t.uploads {
      RowsStay(t, u);
    }
  }

  lemma InsertUploadIff(t: Tables, id: UploadId, row: UploadRow)
    requires Satisfied(t) && id !in t.uploads
    ensures var u := t.(uploads := t.uploads[id := row]);
            InsertUploadRow(t, id, row) == if Satisfied(u) then Some(u) else None
  {
    var u := t.(uploads := t.uploads[id := row]);
    assert id in u.uploads;
    if row.bucket in t.buckets {
      RowsStay(t, u);
    }
  }

  // ---------------------------------------------------------------------
  // What keeps the constraints
  // ---------------------------------------------------------------------

  /** Chunk rows may go, and owners that none of the others belongs to. */
  lemma RowsStay(t: Tables, u: Tables)
    requires RowsIntact(t) && t.kmsKeys <= u.kmsKeys
    requires forall x :: x in u.chunks ==> x in t.chunks && u.chunks[x] == t.chunks[x]
    requires forall x :: x in u.chunks && OwnerOf(u.chunks[x]).Some? ==> OwnerExists(u, OwnerOf(u.chunks[x]).value)
    ensures RowsIntact(u)
  {
    forall x | x in u.chunks
      ensures RowIntact(u, u.chunks[x])
    {
      assert RowIntact(t, t.chunks[x]);
    }
    forall x, y | x in u.chunks && y in u.chunks && x != y
      ensures OrdinalsDiffer(u.chunks[x], u.chunks[y])
    {
      assert OrdinalsDiffer(t.chunks[x], t.chunks[y]);
    }
  }

  /** Deleting owners with all that belongs to them. */
  lemma CascadeKeeps(t: Tables, gone: set<Owner>, u: Tables)
    requires Satisfied(t) && ParentsExist(u) && u.kmsKeys == t.kmsKeys
    requires var w := WithoutOwners(t, gone); u.chunks == w.chunks && u.shards == w.shards
    requires forall o :: OwnerExists(t, o) && o !in gone ==> OwnerExists(u, o)
    ensures Satisfied(u)
  {
    forall x | x in u.chunks && OwnerOf(u.chunks[x]).Some?
      ensures OwnerExists(u, OwnerOf(u.chunks[x]).value)
    {
      assert RowIntact(t, t.chunks[x]);
    }
    RowsStay(t, u);
  }

  lemma DeleteChunksKeeps(t: Tables, o: Owner)
    requires Satisfied(t)
    ensures Satisfied(DeleteChunksOf(t, o))
  {
    CascadeKeeps(t, {o}, DeleteChunksOf(t, o));
  }

  lemma DeleteObjectKeeps(t: Tables, k: ObjectKey)
    requires Satisfied(t)
    ensures Satisfied(DeleteObjectRow(t, k))
  {
    CascadeKeeps(t, {OfObject(k)}, DeleteObjectRow(t, k));
  }

  lemma DeleteUploadsKeeps(t: Tables, ids: set<UploadId>)
    requires Satisfied(t)
    ensures Satisfied(DeleteUploadRows(t, ids))
  {
    CascadeKeeps(t, set p | p in PartsOfUploads(t, ids) :: OfPart(p), DeleteUploadRows(t, ids));
  }

  lemma DeleteBucketKeeps(t: Tables, bucket: string)
    requires Satisfied(t)
    ensures Satisfied(DeleteBucketRow(t, bucket))
  {
    var objects := set k | k in t.objects && k.bucket == bucket;
    var uploads := set u | u in t.uploads && t.uploads[u].bucket == bucket;
    CascadeKeeps(t, (set k | k in objects :: OfObject(k)) + (set p | p in PartsOfUploads(t, uploads) :: OfPart(p)),
                 DeleteBucketRow(t, bucket));
  }

  lemma EnsureBucketKeeps(t: Tables, bucket: string)
    requires Satisfied(t)
    ensures Satisfied(EnsureBucket(t, bucket))
  {
    RowsStay(t, EnsureBucket(t, bucket));
  }

  lemma {:induction false} InsertShardsKeeps(t: Tables, id: nat, shards: seq<Shard>, u: Tables)
    requires Satisfied(t) && InsertShards(t, id, shards) == Some(u)
    ensures Satisfied(u)
    decreases |shards|
  {
    if shards != [] {
      var k, row := KeyOf(id, shards[0]), ShardRow(shards[0].backend, shards[0].location);
      InsertShardIff(t, k, row);
      InsertShardsKeeps(InsertShardRow(t, k, row).value, id, shards[1..], u);
    }
  }

  lemma {:induction false} InsertChunksKeeps(t: Tables, o: Owner, bucket: string, ordinal: nat, chunks: seq<Chunk>,
                                             u: Tables)
    requires Satisfied(t) && InsertChunks(t, o, bucket, ordinal, chunks) == Some(u)
    ensures Satisfied(u)
    decreases |chunks|
  {
    if chunks != [] {
      var c, row := chunks[0], RowOf(o, bucket, ordinal, chunks[0]);
      InsertChunkIff(t, c.id, row);
      var w := InsertChunk(t, o, bucket, ordinal, c).value;
      InsertShardsKeeps(InsertChunkRow(t, c.id, row).value, c.id, c.shards, w);
      InsertChunksKeeps(w, o, bucket, ordinal + 1, chunks[1..], u);
    }
  }

  lemma {:induction false} ReassignKeeps(t: Tables, key: string, ordinal: nat, ids: seq<nat>, u: Tables)
    requires Satisfied(t) && ReassignAll(t, key, ordinal, ids) == Some(u)
    ensures Satisfied(u)
    decreases |ids|
  {
    if ids != [] {
      if ids[0] in t.chunks {
        ReassignChunkIff(t, ids[0], key, ordinal);
      }
      ReassignKeeps(ReassignChunkRow(t, ids[0], key, ordinal).value, key, ordinal + 1, ids[1..], u);
    }
  }

  lemma PutKeeps(t: Tables, k: ObjectKey, row: ObjectRow, chunks: seq<Chunk>, u: Tables)
    requires Satisfied(t) && PutObjectTx(t, k, row, chunks) == Some(u)
    ensures Satisfied(u)
  {
    var w := EnsureBucket(t, k.bucket);
    EnsureBucketKeeps(t, k.bucket);
    UpsertObjectIff(w, k, row);
    var x := UpsertObjectRow(w, k, row).value;
    DeleteChunksKeeps(x, OfObject(k));
    InsertChunksKeeps(DeleteChunksOf(x, OfObject(k)), OfObject(k), k.bucket, 0, chunks, u);
  }

  lemma PutPartKeeps(t: Tables, p: PartKey, row: PartRow, chunks: seq<Chunk>, u: Tables)
    requires Satisfied(t) && PutPartTx(t, p, row, chunks) == Some(u)
    ensures Satisfied(u)
  {
    var w := DeleteChunksOf(t, OfPart(p));
    DeleteChunksKeeps(t, OfPart(p));
    UpsertPartIff(w, p, row);
    InsertChunksKeeps(UpsertPartRow(w, p, row).value, OfPart(p), t.uploads[p.upload].bucket, 0, chunks, u);
  }

  lemma CompleteKeeps(t: Tables, digest: Bytes -> nat, id: UploadId, u: Tables)
    requires Queryable(t) && Satisfied(t) && CompleteTx(t, digest, id) == Some(u)
    ensures Satisfied(u)
  {
    var parts := Taken(t.parts.Keys, id);
    TakenAreParts(t.parts.Keys, id);
    var k, row := Target(t.uploads[id]), CombinedRow(digest, t.uploads[id], PartRows(t, parts));
    var w := EnsureBucket(t, k.bucket);
    EnsureBucketKeeps(t, k.bucket);
    UpsertObjectIff(w, k, row);
    var x := UpsertObjectRow(w, k, row).value;
    DeleteChunksKeeps(x, OfObject(k));
    var y := ReassignAll(DeleteChunksOf(x, OfObject(k)), k.key, 0, PartIds(t, parts)).value;
    ReassignKeeps(DeleteChunksOf(x, OfObject(k)), k.key, 0, PartIds(t, parts), y);
    DeleteUploadsKeeps(y, {id});
  }

  lemma CreateKeeps(t: Tables, id: UploadId, row: UploadRow, u: Tables)
    requires Satisfied(t) && CreateUploadTx(t, id, row) == Some(u)
    ensures Satisfied(u)
  {
    EnsureBucketKeeps(t, row.bucket);
    InsertUploadIff(EnsureBucket(t, row.bucket), id, row);
  }

  lemma KeyKeeps(t: Tables, key: nat)
    requires Satisfied(t)
    ensures Satisfied(t.(kmsKeys := t.kmsKeys + {key}))
  {
    RowsStay(t, t.(kmsKeys := t.kmsKeys + {key}));
  }

  /** Every transaction keeps every constraint, whatever the tables are. */
  lemma TransactionKeeps(env: Env, t: Tables, step: Step, u: Tables)
    requires Satisfied(t) && Transaction(env, t, step) == Some(u)
    ensures Satisfied(u)
  {
    match step
    case Put(k, data, level, chunks) =>
      PutKeeps(t, k, ObjectRow(env.digest(data), |data|, Compression(Zstd, level)), chunks, u);
    case UploadPart(p, data, chunks) => PutPartKeeps(t, p, PartRow(env.digest(data), |data|), chunks, u);
    case Create(id, k, level) => CreateKeeps(t, id, UploadRow(k.bucket, k.key, Compression(Zstd, level)), u);
    case Complete(id) => CompleteKeeps(t, env.digest, id, u);
    case Abort(id) => DeleteUploadsKeeps(t, {id});
    case Delete(k) => DeleteObjectKeeps(t, k);
    case CreateBucket(bucket) => EnsureBucketKeeps(t, bucket);
    case DeleteBucket(bucket) => DeleteBucketKeeps(t, bucket);
    case NewKey(key) => KeyKeeps(t, key);
    case _ =>
  }

  lemma {:induction false} RunKeeps(env: Env, s: Store, steps: seq<Step>)
    requires Satisfied(s.tables) && Legal(env, s, steps)
    ensures Satisfied(Final(env, s, steps).tables)
    decreases |steps|
  {
    if steps != [] {
      var t := Apply(env, s, steps[0]);
      if Succeeds(env, s, steps[0]) {
        TransactionKeeps(env, s.tables, steps[0], t.tables);
      }
      RunKeeps(env, t, steps[1..]);
    }
  }

  /** No constraint is ever violated. */
  lemma ReachableSatisfies(env: Env, steps: seq<Step>)
    requires Legal(env, NO_STORE, steps)
    ensures Satisfied(Final(env, NO_STORE, steps).tables)
  {
    RunKeeps(env, NO_STORE, steps);
  }
}
