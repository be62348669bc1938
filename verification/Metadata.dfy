/** The metadata transactions. A transaction yields no tables when a statement fails; it is then rolled back. */
module Metadata {
  import opened Base
  import opened Sharding
  import opened Chunks
  import opened Schema
  import opened Representation

  // ---------------------------------------------------------------------
  // Transactions
  // ---------------------------------------------------------------------

  function InsertChunks(t: Tables, o: Owner, bucket: string, ordinal: nat, chunks: seq<Chunk>): Option<Tables>
    decreases |chunks|
  {
    if chunks == [] then Some(t)
    else
      var u := InsertChunk(t, o, bucket, ordinal, chunks[0]);
      if u.None? then None else InsertChunks(u.value, o, bucket, ordinal + 1, chunks[1..])
  }

  /** `upsertObject` */
  function PutObjectTx(t: Tables, k: ObjectKey, row: ObjectRow, chunks: seq<Chunk>): Option<Tables> {
    var u := UpsertObjectRow(EnsureBucket(t, k.bucket), k, row);
    if u.None? then None else InsertChunks(DeleteChunksOf(u.value, OfObject(k)), OfObject(k), k.bucket, 0, chunks)
  }

  /** `PutPart` */
  function PutPartTx(t: Tables, p: PartKey, row: PartRow, chunks: seq<Chunk>): Option<Tables> {
    if p.upload !in t.uploads then None
    else
      var u := UpsertPartRow(DeleteChunksOf(t, OfPart(p)), p, row);
      if u.None? then None else InsertChunks(u.value, OfPart(p), t.uploads[p.upload].bucket, 0, chunks)
  }

  /** `CreateMultipartUpload` */
  function CreateUploadTx(t: Tables, id: UploadId, row: UploadRow): Option<Tables> {
    InsertUploadRow(EnsureBucket(t, row.bucket), id, row)
  }

  /** `AbortMultipartUpload` */
  function AbortTx(t: Tables, id: UploadId): Option<Tables> {
    if id in t.uploads then Some(DeleteUploadRows(t, {id})) else None
  }

  /** `DeleteObject` */
  function DeleteObjectTx(t: Tables, k: ObjectKey): Option<Tables> {
    if k in t.objects then Some(DeleteObjectRow(t, k)) else None
  }

  /** `CreateBucket` */
  function CreateBucketTx(t: Tables, name: string): Option<Tables> {
    if name in t.buckets then None else Some(EnsureBucket(t, name))
  }

  /** `DeleteBucket` */
  function DeleteBucketTx(t: Tables, name: string): Option<Tables> {
    if name in t.buckets then Some(DeleteBucketRow(t, name)) else None
  }

  // ---------------------------------------------------------------------
  // The invariant
  // ---------------------------------------------------------------------

  /** Ordinals start at 0 and the list carries its owner's bucket. */
  ghost predicate Rooted(t: Tables, o: Owner, l: Listing) {
    && l.from == 0
    && match o
       case OfObject(k) => l.bucket == k.bucket
       case OfPart(p) => p.upload in t.uploads && l.bucket == t.uploads[p.upload].bucket
  }

  ghost predicate ParentsExist(t: Tables) {
    && (forall k :: k in t.objects ==> k.bucket in t.buckets)
    && (forall u :: u in t.uploads ==> t.uploads[u].bucket in t.buckets)
    && (forall p :: p in t.parts ==> p.upload in t.uploads)
  }

  ghost predicate Owned(t: Tables, lists: Lists) {
    && (forall o :: o in lists ==> OwnerExists(t, o) && Rooted(t, o, lists[o]))
    && (forall k :: k in t.objects ==> OfObject(k) in lists)
    && (forall p :: p in t.parts ==> OfPart(p) in lists)
  }

  /** The tables are in order, and `lists` is what they say. */
  ghost predicate Consistent(t: Tables, lists: Lists) {
    Represents(t, lists) && ParentsExist(t) && Owned(t, lists)
  }

  const NO_TABLES: Tables := Tables({}, map[], map[], map[], map[], map[], {})

  lemma EmptyIsConsistent()
    ensures Consistent(NO_TABLES, map[])
  {
  }

  /** The ordinals of these chunks are exactly 0, 1, ..., k-1. */
  ghost predicate OrdinalsExact(t: Tables, ids: set<nat>) {
    && (forall id :: id in ids ==> id in t.chunks && t.chunks[id].ordinal < |ids|)
    && (forall n: nat :: n < |ids| ==> HasOrdinal(t, ids, n))
  }

  ghost predicate HasOrdinal(t: Tables, ids: set<nat>, n: nat) {
    exists id :: id in ids && id in t.chunks && t.chunks[id].ordinal == n
  }

  ghost predicate OwnedRow(t: Tables, row: ChunkRow) {
    OwnerOf(row).Some? && OwnerExists(t, OwnerOf(row).value)
  }

  ghost predicate CoveredRow(t: Tables, id: nat)
    requires Queryable(t) && id in t.chunks
  {
    assert OrdersShards(t, id);
    Covers(GetShards(t, id), 0, t.chunks[id].body.dataCount + t.chunks[id].body.parityCount)
  }

  /** In the tables' own terms: one existing owner per chunk, ordinals exactly 0 to k-1, no orphaned
      shard, and shard ranges that partition the segments. */
  ghost predicate InOrder(t: Tables) {
    && Queryable(t)
    && (forall id :: id in t.chunks ==> OwnedRow(t, t.chunks[id]))
    && (forall o :: OrdinalsExact(t, ChunkIdsOf(t, o)))
    && (forall k :: k in t.shards ==> k.chunk in t.chunks)
    && (forall id :: id in t.chunks ==> CoveredRow(t, id))
  }

  lemma CountOfOwner(t: Tables, lists: Lists, o: Owner)
    requires Consistent(t, lists) && Queryable(t)
    ensures |ChunkIdsOf(t, o)| == if o in lists then |lists[o].chunks| else 0
  {
    if o in lists {
      assert OrdersChunks(t, o);
      IdsReadBack(t, lists, o);
    } else {
      assert forall id :: id in t.chunks && RowOk(t, lists, id) ==> OwnerOf(t.chunks[id]) != Some(o);
      assert ChunkIdsOf(t, o) == {};
    }
  }

  lemma OrdinalsAreExact(t: Tables, lists: Lists, o: Owner)
    requires Consistent(t, lists) && Queryable(t)
    ensures OrdinalsExact(t, ChunkIdsOf(t, o))
  {
    CountOfOwner(t, lists, o);
    var ids := ChunkIdsOf(t, o);
    forall n: nat | n < |ids|
      ensures HasOrdinal(t, ids, n)
    {
      assert ListOk(t, lists, o);
      assert HasRow(t, o, lists[o], n);
      assert lists[o].chunks[n].id in ids;
    }
    forall id | id in ids
      ensures t.chunks[id].ordinal < |ids|
    {
      assert RowOk(t, lists, id);
    }
  }

  lemma ShardsCover(t: Tables, lists: Lists, id: nat)
    requires Consistent(t, lists) && Queryable(t) && id in t.chunks
    ensures CoveredRow(t, id) && OwnedRow(t, t.chunks[id])
  {
    RowChunk(t, lists, id);
    assert OrdersShards(t, id);
    ShardsReadBack(t, id, ChunkOf(t.chunks[id], lists));
  }

  lemma ConsistentIsInOrder(t: Tables, lists: Lists)
    requires Consistent(t, lists)
    ensures InOrder(t)
  {
    RepresentedIsQueryable(t, lists);
    forall id | id in t.chunks
      ensures CoveredRow(t, id) && OwnedRow(t, t.chunks[id])
    {
      ShardsCover(t, lists, id);
    }
    forall o
      ensures OrdinalsExact(t, ChunkIdsOf(t, o))
    {
      OrdinalsAreExact(t, lists, o);
    }
  }

  // ---------------------------------------------------------------------
  // What each transaction does to the lists
  // ---------------------------------------------------------------------

  lemma RepresentsFrame(t: Tables, u: Tables, lists: Lists)
    requires Represents(t, lists) && u.chunks == t.chunks && u.shards == t.shards
    ensures Represents(u, lists)
  {
    forall id | id in u.chunks
      ensures RowOk(u, lists, id) && ShardsOk(u, lists, id)
    {
      assert RowOk(t, lists, id) && ShardsOk(t, lists, id);
    }
    forall o | o in lists
      ensures ListOk(u, lists, o)
    {
      assert ListOk(t, lists, o);
      forall j: nat | j < |lists[o].chunks|
        ensures HasRow(u, o, lists[o], j)
      {
        assert HasRow(t, o, lists[o], j);
      }
    }
  }

  /** The chunk's id is new and its key, if any, is known. */
  predicate Insertable(t: Tables, c: Chunk) {
    c.id !in t.chunks && KeyAllowed(t, BodyOf(c))
  }

  /** All ids are new and differ, and all keys are known. */
  ghost predicate Storable(t: Tables, chunks: seq<Chunk>) {
    && (forall i :: 0 <= i < |chunks| ==> Insertable(t, chunks[i]))
    && (forall i, j :: 0 <= i < j < |chunks| ==> chunks[i].id != chunks[j].id)
  }

  lemma StorableTail(t: Tables, u: Tables, chunks: seq<Chunk>)
    requires chunks != [] && u.chunks.Keys == t.chunks.Keys + {chunks[0].id} && u.kmsKeys == t.kmsKeys
    ensures Storable(t, chunks) <==> Insertable(t, chunks[0]) && Storable(u, chunks[1..])
  {
    var rest := chunks[1..];
    if Storable(t, chunks) {
      forall i | 0 <= i < |rest|
        ensures Insertable(u, rest[i])
      {
        assert Insertable(t, chunks[i + 1]) && chunks[0].id != chunks[i + 1].id;
      }
    }
    if Insertable(t, chunks[0]) && Storable(u, rest) {
      forall i | 0 <= i < |chunks|
        ensures Insertable(t, chunks[i]) && (i > 0 ==> chunks[i].id != chunks[0].id)
      {
        assert i > 0 ==> chunks[i] == rest[i - 1] && Insertable(u, rest[i - 1]);
      }
      forall i, j | 0 <= i < j < |chunks|
        ensures chunks[i].id != chunks[j].id
      {
        assert i > 0 ==> chunks[i] == rest[i - 1] && chunks[j] == rest[j - 1];
      }
    }
  }

  ghost predicate AllWellFormed(chunks: seq<Chunk>) {
    forall i :: 0 <= i < |chunks| ==> WellFormed(chunks[i])
  }

  /** The owner is there and chunks can be added to its list. */
  ghost predicate Open(t: Tables, lists: Lists, o: Owner) {
    o in lists && OwnerExists(t, o) && (o.OfObject? ==> lists[o].bucket == o.name.bucket)
  }

  function Extended(lists: Lists, o: Owner, chunks: seq<Chunk>): Lists
    requires o in lists
  {
    lists[o := lists[o].(chunks := lists[o].chunks + chunks)]
  }

  lemma ExtendedByNothing(lists: Lists, o: Owner)
    requires o in lists
    ensures Extended(lists, o, []) == lists
  {
    assert lists[o].chunks + [] == lists[o].chunks;
  }

  lemma ExtendedByOne(lists: Lists, o: Owner, chunks: seq<Chunk>)
    requires o in lists && chunks != []
    ensures Extended(lists[o := Appended(lists[o], chunks[0])], o, chunks[1..]) == Extended(lists, o, chunks)
  {
    assert (lists[o].chunks + [chunks[0]]) + chunks[1..] == lists[o].chunks + chunks;
  }

  ghost predicate OnlyChunksDiffer(t: Tables, u: Tables) {
    u == t.(chunks := u.chunks, shards := u.shards)
  }

  lemma InsertNeeds(t: Tables, lists: Lists, o: Owner, c: Chunk)
    requires Open(t, lists, o) && !Insertable(t, c)
    ensures InsertChunk(t, o, lists[o].bucket, lists[o].from + |lists[o].chunks|, c) == None
  {
  }

  lemma InsertFirst(t: Tables, lists: Lists, o: Owner, chunks: seq<Chunk>) returns (u: Tables)
    requires Represents(t, lists) && Open(t, lists, o) && AllWellFormed(chunks) && chunks != []
    requires Insertable(t, chunks[0])
    ensures InsertChunks(t, o, lists[o].bucket, lists[o].from + |lists[o].chunks|, chunks)
         == InsertChunks(u, o, lists[o].bucket, lists[o].from + |lists[o].chunks| + 1, chunks[1..])
    ensures Represents(u, lists[o := Appended(lists[o], chunks[0])])
    ensures Open(u, lists[o := Appended(lists[o], chunks[0])], o)
    ensures OnlyChunksDiffer(t, u) && AllWellFormed(chunks[1..])
    ensures Storable(t, chunks) <==> Storable(u, chunks[1..])
  {
    assert WellFormed(chunks[0]);
    u := InsertRepresents(t, lists, o, chunks[0]);
    InsertsFrom(t, o, lists[o].bucket, lists[o].from + |lists[o].chunks|, chunks);
    StorableTail(t, u, chunks);
  }

  /** What inserting the chunks one after the other comes to. */
  ghost predicate InsertsAre(t: Tables, lists: Lists, o: Owner, chunks: seq<Chunk>, r: Option<Tables>)
    requires o in lists
  {
    && (r.Some? <==> Storable(t, chunks))
    && (r.Some? ==> Represents(r.value, Extended(lists, o, chunks)) && OnlyChunksDiffer(t, r.value))
  }

  lemma InsertsAfter(t: Tables, u: Tables, lists: Lists, o: Owner, chunks: seq<Chunk>, r: Option<Tables>)
    requires chunks != [] && o in lists && OnlyChunksDiffer(t, u) && (Storable(t, chunks) <==> Storable(u, chunks[1..]))
    requires InsertsAre(u, lists[o := Appended(lists[o], chunks[0])], o, chunks[1..], r)
    ensures InsertsAre(t, lists, o, chunks, r)
  {
    ExtendedByOne(lists, o, chunks);
  }

  /** A loop of inserts succeeds exactly when ids are new and keys known, and then appends the chunks. */
  lemma {:induction false} InsertChunksRepresents(t: Tables, lists: Lists, o: Owner, chunks: seq<Chunk>)
    requires Represents(t, lists) && Open(t, lists, o) && AllWellFormed(chunks)
    ensures InsertsAre(t, lists, o, chunks,
                       InsertChunks(t, o, lists[o].bucket, lists[o].from + |lists[o].chunks|, chunks))
    decreases |chunks|
  {
    if chunks == [] {
      ExtendedByNothing(lists, o);
    } else {
      if !Insertable(t, chunks[0]) {
        InsertStops(t, lists, o, chunks);
      } else {
        var u := InsertFirst(t, lists, o, chunks);
        InsertChunksRepresents(u, lists[o := Appended(lists[o], chunks[0])], o, chunks[1..]);
        InsertsAfter(t, u, lists, o, chunks,
                     InsertChunks(u, o, lists[o].bucket, lists[o].from + |lists[o].chunks| + 1, chunks[1..]));
      }
    }
  }

  lemma InsertsFrom(t: Tables, o: Owner, bucket: string, ordinal: nat, chunks: seq<Chunk>)
    requires chunks != []
    ensures var u := InsertChunk(t, o, bucket, ordinal, chunks[0]);
            InsertChunks(t, o, bucket, ordinal, chunks)
            == if u.None? then None else InsertChunks(u.value, o, bucket, ordinal + 1, chunks[1..])
  {
  }

  lemma InsertStops(t: Tables, lists: Lists, o: Owner, chunks: seq<Chunk>)
    requires Open(t, lists, o) && chunks != [] && !Insertable(t, chunks[0])
    ensures InsertsAre(t, lists, o, chunks,
                       InsertChunks(t, o, lists[o].bucket, lists[o].from + |lists[o].chunks|, chunks))
  {
    InsertsFrom(t, o, lists[o].bucket, lists[o].from + |lists[o].chunks|, chunks);
    InsertNeeds(t, lists, o, chunks[0]);
  }

  function Whole(bucket: string, chunks: seq<Chunk>): Listing {
    Listing(bucket, 0, chunks)
  }

  /** Deleting an owner's chunks leaves it with an empty list. */
  lemma ClearRepresents(t: Tables, lists: Lists, o: Owner, bucket: string)
    requires Represents(t, lists)
    ensures Represents(DeleteChunksOf(t, o), lists[o := Whole(bucket, [])])
  {
    DeleteRepresents(t, lists, {o});
    EmptyRepresents(DeleteChunksOf(t, o), lists - {o}, o, bucket);
    assert (lists - {o})[o := Whole(bucket, [])] == lists[o := Whole(bucket, [])];
  }

  /** Replacing an owner's chunks: delete, then insert from ordinal 0. */
  lemma ReplaceRepresents(t: Tables, lists: Lists, o: Owner, bucket: string, chunks: seq<Chunk>)
    requires Represents(t, lists) && AllWellFormed(chunks) && OwnerExists(t, o)
    requires o.OfObject? ==> bucket == o.name.bucket
    ensures var u := DeleteChunksOf(t, o);
            var r := InsertChunks(u, o, bucket, 0, chunks);
            && (r.Some? <==> Storable(u, chunks))
            && (r.Some? ==> Represents(r.value, lists[o := Whole(bucket, chunks)]) && OnlyChunksDiffer(t, r.value))
  {
    ClearRepresents(t, lists, o, bucket);
    InsertChunksRepresents(DeleteChunksOf(t, o), lists[o := Whole(bucket, [])], o, chunks);
    InsertsIntoEmpty(t, DeleteChunksOf(t, o), lists, o, bucket, chunks,
                     InsertChunks(DeleteChunksOf(t, o), o, bucket, 0, chunks));
  }

  lemma InsertsIntoEmpty(t: Tables, u: Tables, lists: Lists, o: Owner, bucket: string, chunks: seq<Chunk>,
                         r: Option<Tables>)
    requires OnlyChunksDiffer(t, u) && InsertsAre(u, lists[o := Whole(bucket, [])], o, chunks, r)
    ensures r.Some? <==> Storable(u, chunks)
    ensures r.Some? ==> Represents(r.value, lists[o := Whole(bucket, chunks)]) && OnlyChunksDiffer(t, r.value)
  {
    FilledFromEmpty(lists, o, bucket, chunks);
  }

  lemma FilledFromEmpty(lists: Lists, o: Owner, bucket: string, chunks: seq<Chunk>)
    ensures Extended(lists[o := Whole(bucket, [])], o, chunks) == lists[o := Whole(bucket, chunks)]
  {
    assert [] + chunks == chunks;
  }

  lemma PutObjectOwned(t: Tables, lists: Lists, k: ObjectKey, row: ObjectRow, chunks: seq<Chunk>, u: Tables)
    requires ParentsExist(t) && Owned(t, lists)
    requires OnlyChunksDiffer(t.(buckets := t.buckets + {k.bucket}, objects := t.objects[k := row]), u)
    ensures ParentsExist(u) && Owned(u, lists[OfObject(k) := Whole(k.bucket, chunks)])
  {
  }

  /** A put replaces the object's row and its chunk list, and nothing else. */
  lemma PutObjectConsistent(t: Tables, lists: Lists, k: ObjectKey, row: ObjectRow, chunks: seq<Chunk>)
    requires Consistent(t, lists) && AllWellFormed(chunks)
    ensures var r := PutObjectTx(t, k, row, chunks);
            && (r.Some? <==> Storable(DeleteChunksOf(t, OfObject(k)), chunks))
            && (r.Some? ==>
                  && Consistent(r.value, lists[OfObject(k) := Whole(k.bucket, chunks)])
                  && OnlyChunksDiffer(t.(buckets := t.buckets + {k.bucket}, objects := t.objects[k := row]), r.value))
  {
    var u := t.(buckets := t.buckets + {k.bucket}, objects := t.objects[k := row]);
    assert UpsertObjectRow(EnsureBucket(t, k.bucket), k, row) == Some(u);
    RepresentsFrame(t, u, lists);
    ReplaceRepresents(u, lists, OfObject(k), k.bucket, chunks);
    StorableFrame(DeleteChunksOf(u, OfObject(k)), DeleteChunksOf(t, OfObject(k)), chunks);
    var r := PutObjectTx(t, k, row, chunks);
    if r.Some? {
      PutObjectOwned(t, lists, k, row, chunks, r.value);
    }
  }

  lemma StorableFrame(t: Tables, u: Tables, chunks: seq<Chunk>)
    requires t.chunks.Keys == u.chunks.Keys && t.kmsKeys == u.kmsKeys
    ensures Storable(t, chunks) <==> Storable(u, chunks)
  {
    assert forall i :: 0 <= i < |chunks| ==> Insertable(t, chunks[i]) == Insertable(u, chunks[i]);
  }

  lemma PutPartOwned(t: Tables, lists: Lists, p: PartKey, row: PartRow, chunks: seq<Chunk>, u: Tables)
    requires ParentsExist(t) && Owned(t, lists) && p.upload in t.uploads
    requires OnlyChunksDiffer(t.(parts := t.parts[p := row]), u)
    ensures ParentsExist(u) && Owned(u, lists[OfPart(p) := Whole(t.uploads[p.upload].bucket, chunks)])
  {
  }

  /** Uploading a part replaces that part's row and chunk list, and nothing else. */
  lemma PutPartConsistent(t: Tables, lists: Lists, p: PartKey, row: PartRow, chunks: seq<Chunk>)
    requires Consistent(t, lists) && AllWellFormed(chunks)
    ensures var r := PutPartTx(t, p, row, chunks);
            && (r.Some? <==> p.upload in t.uploads && Storable(DeleteChunksOf(t, OfPart(p)), chunks))
            && (r.Some? ==>
                  && Consistent(r.value, lists[OfPart(p) := Whole(t.uploads[p.upload].bucket, chunks)])
                  && OnlyChunksDiffer(t.(parts := t.parts[p := row]), r.value))
  {
    if p.upload in t.uploads {
      var u := t.(parts := t.parts[p := row]);
      RepresentsFrame(t, u, lists);
      ReplaceRepresents(u, lists, OfPart(p), t.uploads[p.upload].bucket, chunks);
      assert UpsertPartRow(DeleteChunksOf(t, OfPart(p)), p, row) == Some(DeleteChunksOf(u, OfPart(p)));
      StorableFrame(DeleteChunksOf(u, OfPart(p)), DeleteChunksOf(t, OfPart(p)), chunks);
      var r := PutPartTx(t, p, row, chunks);
      if r.Some? {
        PutPartOwned(t, lists, p, row, chunks, r.value);
      }
    }
  }

  /** Opening an upload adds it, and its bucket if need be. */
  lemma CreateUploadConsistent(t: Tables, lists: Lists, id: UploadId, row: UploadRow)
    requires Consistent(t, lists)
    ensures var r := CreateUploadTx(t, id, row);
            && (r.Some? <==> id !in t.uploads)
            && (r.Some? ==> Consistent(r.value, lists))
  {
    if id !in t.uploads {
      var u := CreateUploadTx(t, id, row).value;
      RepresentsFrame(t, u, lists);
    }
  }

  lemma CreateBucketConsistent(t: Tables, lists: Lists, bucket: string)
    requires Consistent(t, lists)
    ensures Consistent(EnsureBucket(t, bucket), lists)
  {
    RepresentsFrame(t, EnsureBucket(t, bucket), lists);
  }

  lemma KeyConsistent(t: Tables, lists: Lists, key: nat)
    requires Consistent(t, lists)
    ensures Consistent(t.(kmsKeys := t.kmsKeys + {key}), lists)
  {
    RepresentsFrame(t, t.(kmsKeys := t.kmsKeys + {key}), lists);
  }

  function PartOwners(t: Tables, ids: set<UploadId>): set<Owner> {
    set p | p in PartsOfUploads(t, ids) :: OfPart(p)
  }

  /** Deleting uploads removes their parts' lists, and nothing else. */
  lemma DeleteUploadsConsistent(t: Tables, lists: Lists, ids: set<UploadId>)
    requires Consistent(t, lists)
    ensures Consistent(DeleteUploadRows(t, ids), lists - PartOwners(t, ids))
  {
    DeleteRepresents(t, lists, PartOwners(t, ids));
    var w := WithoutOwners(t, PartOwners(t, ids));
    RepresentsFrame(w, DeleteUploadRows(t, ids), lists - PartOwners(t, ids));
  }

  /** Deleting an object removes its list, and nothing else. */
  lemma DeleteObjectConsistent(t: Tables, lists: Lists, k: ObjectKey)
    requires Consistent(t, lists)
    ensures Consistent(DeleteObjectRow(t, k), lists - {OfObject(k)})
  {
    DeleteRepresents(t, lists, {OfObject(k)});
    RepresentsFrame(WithoutOwners(t, {OfObject(k)}), DeleteObjectRow(t, k), lists - {OfObject(k)});
  }

  function OwnersIn(t: Tables, bucket: string): set<Owner> {
    (set k | k in t.objects && k.bucket == bucket :: OfObject(k)) + PartOwners(t, UploadsIn(t, bucket))
  }

  function UploadsIn(t: Tables, bucket: string): set<UploadId> {
    set u | u in t.uploads && t.uploads[u].bucket == bucket
  }

  lemma DeleteBucketOwned(t: Tables, lists: Lists, bucket: string)
    requires ParentsExist(t) && Owned(t, lists)
    ensures ParentsExist(DeleteBucketRow(t, bucket)) && Owned(DeleteBucketRow(t, bucket), lists - OwnersIn(t, bucket))
  {
    var u, left := DeleteBucketRow(t, bucket), lists - OwnersIn(t, bucket);
    forall o | o in left
      ensures OwnerExists(u, o) && Rooted(u, o, left[o])
    {
      assert OwnerExists(t, o) && Rooted(t, o, lists[o]);
      assert o.OfPart? ==> o.part !in PartsOfUploads(t, UploadsIn(t, bucket));
    }
  }

  /** Deleting a bucket removes the lists of its objects and of its uploads' parts, and nothing else. */
  lemma DeleteBucketConsistent(t: Tables, lists: Lists, bucket: string)
    requires Consistent(t, lists)
    ensures Consistent(DeleteBucketRow(t, bucket), lists - OwnersIn(t, bucket))
  {
    var gone := OwnersIn(t, bucket);
    DeleteRepresents(t, lists, gone);
    var objects := set k | k in t.objects && k.bucket == bucket;
    assert gone == (set k | k in objects :: OfObject(k)) + PartOwners(t, UploadsIn(t, bucket));
    RepresentsFrame(WithoutOwners(t, gone), DeleteBucketRow(t, bucket), lists - gone);
    DeleteBucketOwned(t, lists, bucket);
  }
}
