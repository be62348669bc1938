/** The relational tables: rows, constraints and the SQL statements that change them.
    A statement yields no table when it would violate a constraint. */
module Schema {
  import opened Base
  import opened Layout
  import opened Sharding
  import opened Chunks
  import opened Ordering

  // ---------------------------------------------------------------------
  // Rows
  // ---------------------------------------------------------------------

  datatype ObjectKey = ObjectKey(bucket: string, key: string)

  type UploadId = nat

  datatype PartKey = PartKey(upload: UploadId, number: int)

  datatype ObjectRow = ObjectRow(etag: nat, size: nat, compression: Compression)

  datatype UploadRow = UploadRow(bucket: string, key: string, compression: Compression)

  datatype PartRow = PartRow(etag: nat, size: nat)

  datatype ChunkBody = ChunkBody(
    size: nat, segmentSize: nat, dataCount: nat, parityCount: nat, encryption: EncryptionType, kmsKey: Option<nat>)

  datatype ChunkRow = ChunkRow(
    bucket: string, objectKey: Option<string>, uploadId: Option<UploadId>, partNumber: Option<int>, ordinal: nat,
    body: ChunkBody)

  datatype ShardKey = ShardKey(chunk: nat, first: nat, last: nat)

  datatype ShardRow = ShardRow(backend: BackendId, location: nat)

  datatype Tables = Tables(
    buckets: set<string>,
    objects: map<ObjectKey, ObjectRow>,
    uploads: map<UploadId, UploadRow>,
    parts: map<PartKey, PartRow>,
    chunks: map<nat, ChunkRow>,
    shards: map<ShardKey, ShardRow>,
    kmsKeys: set<nat>)

  /** What a chunk row's foreign keys point to. */
  datatype Owner = OfObject(name: ObjectKey) | OfPart(part: PartKey)

  function OwnerOf(row: ChunkRow): Option<Owner> {
    if row.objectKey.Some? && row.uploadId.None? then
      Some(OfObject(ObjectKey(row.bucket, row.objectKey.value)))
    else if row.objectKey.None? && row.uploadId.Some? && row.partNumber.Some? then
      Some(OfPart(PartKey(row.uploadId.value, row.partNumber.value)))
    else None
  }

  // ---------------------------------------------------------------------
  // Chunks to rows and back
  // ---------------------------------------------------------------------

  function BodyOf(c: Chunk): ChunkBody {
    ChunkBody(c.size, c.segmentSize, c.dataCount, c.parityCount, c.encryption,
              if c.encryption.NoEncryption? then None else Some(c.keyId))
  }

  function RowOf(o: Owner, bucket: string, ordinal: nat, c: Chunk): ChunkRow {
    match o
    case OfObject(k) => ChunkRow(bucket, Some(k.key), None, None, ordinal, BodyOf(c))
    case OfPart(p) => ChunkRow(bucket, None, Some(p.upload), Some(p.number), ordinal, BodyOf(c))
  }

  function Restore(id: nat, body: ChunkBody, shards: seq<Shard>): Chunk {
    Chunk(id, body.size, body.segmentSize, body.dataCount, body.parityCount, body.encryption,
          if body.kmsKey.Some? then body.kmsKey.value else 0, shards)
  }

  /** A chunk survives the trip through its row exactly when an unencrypted one carries no key id. */
  lemma RowRoundTripIff(c: Chunk)
    ensures Restore(c.id, BodyOf(c), c.shards) == c <==> (c.encryption.NoEncryption? ==> c.keyId == 0)
  {
  }

  // ---------------------------------------------------------------------
  // Statements
  // ---------------------------------------------------------------------

  /** INSERT OR IGNORE INTO buckets */
  function EnsureBucket(t: Tables, name: string): Tables {
    t.(buckets := t.buckets + {name})
  }

  /** INSERT INTO objects ... ON CONFLICT DO UPDATE */
  function UpsertObjectRow(t: Tables, k: ObjectKey, row: ObjectRow): Option<Tables> {
    if k.bucket !in t.buckets then None else Some(t.(objects := t.objects[k := row]))
  }

  /** INSERT INTO multipart_parts ... ON CONFLICT DO UPDATE */
  function UpsertPartRow(t: Tables, p: PartKey, row: PartRow): Option<Tables> {
    if p.upload !in t.uploads then None else Some(t.(parts := t.parts[p := row]))
  }

  /** INSERT INTO multipart_uploads */
  function InsertUploadRow(t: Tables, id: UploadId, row: UploadRow): Option<Tables> {
    if id in t.uploads || row.bucket !in t.buckets then None else Some(t.(uploads := t.uploads[id := row]))
  }

  predicate OwnerExists(t: Tables, o: Owner) {
    match o
    case OfObject(k) => k in t.objects
    case OfPart(p) => p in t.parts
  }

  /** CHECK, the two owner foreign keys and the two partial unique indexes. */
  predicate SlotAllowed(t: Tables, id: nat, row: ChunkRow) {
    && (row.objectKey.None? != row.uploadId.None?)
    && (row.objectKey.Some? ==> ObjectKey(row.bucket, row.objectKey.value) in t.objects)
    && (row.uploadId.Some? && row.partNumber.Some? ==> PartKey(row.uploadId.value, row.partNumber.value) in t.parts)
    && (forall x :: x in t.chunks && x != id ==> !SameSlot(t.chunks[x], row))
  }

  /** The foreign key to the key table. */
  predicate KeyAllowed(t: Tables, body: ChunkBody) {
    body.kmsKey.Some? ==> body.kmsKey.value in t.kmsKeys
  }

  /** Two rows that one of the unique indexes keeps apart. NULLs never clash. */
  predicate SameSlot(a: ChunkRow, b: ChunkRow) {
    && a.ordinal == b.ordinal
    && (|| (a.objectKey.Some? && a.objectKey == b.objectKey && a.bucket == b.bucket)
        || (a.uploadId.Some? && a.uploadId == b.uploadId && a.partNumber.Some? && a.partNumber == b.partNumber))
  }

  /** INSERT INTO chunks */
  function InsertChunkRow(t: Tables, id: nat, row: ChunkRow): Option<Tables> {
    if id in t.chunks || !SlotAllowed(t, id, row) || !KeyAllowed(t, row.body) then None
    else Some(t.(chunks := t.chunks[id := row]))
  }

  /** INSERT INTO shards */
  function InsertShardRow(t: Tables, k: ShardKey, row: ShardRow): Option<Tables> {
    if k in t.shards || k.chunk !in t.chunks then None else Some(t.(shards := t.shards[k := row]))
  }

  /** UPDATE chunks SET object_key = ?, upload_id = NULL, part_number = NULL, ordinal = ? WHERE id = ? */
  function ReassignChunkRow(t: Tables, id: nat, key: string, ordinal: nat): Option<Tables> {
    if id !in t.chunks then Some(t)
    else
      var row := t.chunks[id].(objectKey := Some(key), uploadId := None, partNumber := None, ordinal := ordinal);
      if SlotAllowed(t, id, row) then Some(t.(chunks := t.chunks[id := row])) else None
  }

  /** The chunk rows without those of the given owners, and the shard rows that survive the cascade. */
  function WithoutOwners(t: Tables, gone: set<Owner>): Tables {
    var chunks :=
      map id | id in t.chunks && !(OwnerOf(t.chunks[id]).Some? && OwnerOf(t.chunks[id]).value in gone) :: t.chunks[id];
    t.(chunks := chunks, shards := map k | k in t.shards && k.chunk in chunks :: t.shards[k])
  }

  /** DELETE FROM chunks WHERE bucket = ? AND object_key = ?, or the same for a part. */
  function DeleteChunksOf(t: Tables, o: Owner): Tables {
    WithoutOwners(t, {o})
  }

  /** DELETE FROM objects, cascading. */
  function DeleteObjectRow(t: Tables, k: ObjectKey): Tables {
    WithoutOwners(t, {OfObject(k)}).(objects := t.objects - {k})
  }

  function PartsOfUploads(t: Tables, ids: set<UploadId>): set<PartKey> {
    set p | p in t.parts && p.upload in ids
  }

  /** DELETE FROM multipart_uploads, cascading over parts, chunks and shards. */
  function DeleteUploadRows(t: Tables, ids: set<UploadId>): Tables {
    var parts := PartsOfUploads(t, ids);
    WithoutOwners(t, set p | p in parts :: OfPart(p)).(uploads := t.uploads - ids, parts := t.parts - parts)
  }

  /** DELETE FROM buckets, cascading over objects and uploads. */
  function DeleteBucketRow(t: Tables, name: string): Tables {
    var objects := set k | k in t.objects && k.bucket == name;
    var uploads := set u | u in t.uploads && t.uploads[u].bucket == name;
    var parts := PartsOfUploads(t, uploads);
    WithoutOwners(t, (set k | k in objects :: OfObject(k)) + (set p | p in parts :: OfPart(p)))
    .(buckets := t.buckets - {name}, objects := t.objects - objects, uploads := t.uploads - uploads,
      parts := t.parts - parts)
  }

  // ---------------------------------------------------------------------
  // Queries
  // ---------------------------------------------------------------------

  function ShardKeysOf(t: Tables, id: nat): set<ShardKey> {
    set k | k in t.shards && k.chunk == id
  }

  function ByFirst(t: Tables): map<ShardKey, int> {
    map k | k in t.shards :: k.first
  }

  function ShardAt(t: Tables, k: ShardKey): Shard
    requires k in t.shards
  {
    Shard(k.first, k.last, t.shards[k].backend, t.shards[k].location)
  }

  /** SELECT ... FROM shards WHERE chunk_id = ? ORDER BY first */
  function GetShards(t: Tables, id: nat): seq<Shard>
    requires OrdersShards(t, id)
  {
    var keys := Sort(ShardKeysOf(t, id), ByFirst(t));
    seq(|keys|, i requires 0 <= i < |keys| => assert keys[i] in keys; ShardAt(t, keys[i]))
  }

  function ChunkIdsOf(t: Tables, o: Owner): set<nat> {
    set id | id in t.chunks && OwnerOf(t.chunks[id]) == Some(o)
  }

  function ByOrdinal(t: Tables): map<nat, int> {
    map id | id in t.chunks :: t.chunks[id].ordinal
  }

  ghost predicate OrdersChunks(t: Tables, o: Owner) {
    Ranked(ChunkIdsOf(t, o), ByOrdinal(t))
  }

  ghost predicate OrdersShards(t: Tables, id: nat) {
    Ranked(ShardKeysOf(t, id), ByFirst(t))
  }

  /** The unique indexes and the shard ranges make ORDER BY unambiguous. */
  ghost predicate Queryable(t: Tables) {
    && (forall o {:trigger OrdersChunks(t, o)} :: OrdersChunks(t, o))
    && (forall id {:trigger OrdersShards(t, id)} :: OrdersShards(t, id))
  }

  function RestoreAll(t: Tables, ids: seq<nat>): seq<Chunk>
    requires Queryable(t) && forall id :: id in ids ==> id in t.chunks
  {
    if ids == [] then []
    else
      assert ids[0] in ids && OrdersShards(t, ids[0]);
      [Restore(ids[0], t.chunks[ids[0]].body, GetShards(t, ids[0]))] + RestoreAll(t, ids[1..])
  }

  /** SELECT ... FROM chunks WHERE (owner) ORDER BY ordinal, each with its shards */
  function GetChunks(t: Tables, o: Owner): seq<Chunk>
    requires Queryable(t)
  {
    assert OrdersChunks(t, o);
    RestoreAll(t, Sort(ChunkIdsOf(t, o), ByOrdinal(t)))
  }
}
