/** The whole store, over every run of its operations, refines a map from (bucket, key) to bytes. */
module ObjectStore {
  import opened Base
  import opened Layout
  import opened Backends
  import opened Chunks
  import opened Schema
  import opened Representation
  import opened Metadata
  import opened Multipart

  /** The object manager compresses with zstd. */
  const KIND: CompressionType := Zstd

  /** The configured system and the checksum function. */
  datatype Env = Env(sys: System, digest: Bytes -> nat)

  /** The tables, the blobs on the backends, and every address handed out so far. */
  datatype Store = Store(tables: Tables, blobs: Blobs, used: set<Address>)

  // ---------------------------------------------------------------------
  // Chunk lists and blobs
  // ---------------------------------------------------------------------

  /** All addresses a list of chunks refers to. */
  function AllRefs(chunks: seq<Chunk>): set<Address> {
    if chunks == [] then {} else Refs(chunks[0]) + AllRefs(chunks[1..])
  }

  /** Each chunk holds its piece. */
  ghost predicate HeldAs(sys: System, blobs: Blobs, chunks: seq<Chunk>, pieces: seq<Bytes>) {
    && |chunks| == |pieces|
    && forall i {:trigger Holds(sys, blobs, chunks[i], KIND, pieces[i])} :: 0 <= i < |chunks| ==>
         Holds(sys, blobs, chunks[i], KIND, pieces[i])
  }

  ghost predicate Held(sys: System, blobs: Blobs, chunks: seq<Chunk>, data: Bytes) {
    exists pieces :: HeldAs(sys, blobs, chunks, pieces) && Flatten(pieces) == data
  }

  /** All blobs of the chunks are there, and together they hold the data. */
  ghost predicate Intact(sys: System, blobs: Blobs, chunks: seq<Chunk>, data: Bytes) {
    AllRefs(chunks) <= blobs.Keys && Held(sys, blobs, chunks, data)
  }

  lemma {:induction false} AllRefsAppend(a: seq<Chunk>, b: seq<Chunk>)
    ensures AllRefs(a + b) == AllRefs(a) + AllRefs(b)
  {
    if a == [] {
      assert a + b == b;
    } else {
      assert (a + b)[1..] == a[1..] + b;
      AllRefsAppend(a[1..], b);
    }
  }

  lemma {:induction false} AllRefsBound(chunks: seq<Chunk>, within: set<Address>, without: set<Address>)
    requires forall i :: 0 <= i < |chunks| ==> Refs(chunks[i]) <= within && Refs(chunks[i]) !! without
    ensures AllRefs(chunks) <= within && AllRefs(chunks) !! without
  {
    if chunks != [] {
      AllRefsBound(chunks[1..], within, without);
    }
  }

  lemma {:induction false} RefsAreAmong(chunks: seq<Chunk>, i: nat)
    requires i < |chunks|
    ensures Refs(chunks[i]) <= AllRefs(chunks)
  {
    if i > 0 {
      RefsAreAmong(chunks[1..], i - 1);
    }
  }

  /** Reading depends only on the blobs referred to. */
  lemma {:induction false} ReadFrame(sys: System, a: Blobs, b: Blobs, down: set<BackendId>, chunks: seq<Chunk>)
    requires Agree(a, b, AllRefs(chunks))
    ensures ReadChunks(sys, a, down, chunks, KIND) == ReadChunks(sys, b, down, chunks, KIND)
    decreases |chunks|
  {
    if chunks != [] {
      ReadChunkFrame(sys, a, b, down, chunks[0], KIND);
      ReadFrame(sys, a, b, down, chunks[1..]);
    }
  }

  lemma HeldFrame(sys: System, a: Blobs, b: Blobs, chunks: seq<Chunk>, pieces: seq<Bytes>)
    requires HeldAs(sys, a, chunks, pieces) && AllRefs(chunks) <= a.Keys && Agree(a, b, AllRefs(chunks))
    ensures HeldAs(sys, b, chunks, pieces)
  {
    forall i | 0 <= i < |chunks|
      ensures Holds(sys, b, chunks[i], KIND, pieces[i])
    {
      RefsAreAmong(chunks, i);
      assert Holds(sys, a, chunks[i], KIND, pieces[i]);
      HoldsFrame(sys, a, b, chunks[i], KIND, pieces[i]);
    }
  }

  /** More blobs, same data. */
  lemma IntactFrame(sys: System, a: Blobs, b: Blobs, chunks: seq<Chunk>, data: Bytes)
    requires Intact(sys, a, chunks, data) && Keeps(a, b)
    ensures Intact(sys, b, chunks, data)
  {
    var pieces :| HeldAs(sys, a, chunks, pieces) && Flatten(pieces) == data;
    HeldFrame(sys, a, b, chunks, pieces);
  }

  lemma HeldAppend(sys: System, blobs: Blobs, a: seq<Chunk>, x: seq<Bytes>, b: seq<Chunk>, y: seq<Bytes>)
    requires HeldAs(sys, blobs, a, x) && HeldAs(sys, blobs, b, y)
    ensures HeldAs(sys, blobs, a + b, x + y)
  {
    var chunks, pieces := a + b, x + y;
    forall i | 0 <= i < |chunks|
      ensures Holds(sys, blobs, chunks[i], KIND, pieces[i])
    {
      if i < |a| {
        assert Holds(sys, blobs, a[i], KIND, x[i]);
      } else {
        assert Holds(sys, blobs, b[i - |a|], KIND, y[i - |a|]);
      }
    }
  }

  /** Concatenated lists hold concatenated data. */
  lemma IntactAppend(sys: System, blobs: Blobs, a: seq<Chunk>, x: Bytes, b: seq<Chunk>, y: Bytes)
    requires Intact(sys, blobs, a, x) && Intact(sys, blobs, b, y)
    ensures Intact(sys, blobs, a + b, x + y)
  {
    var p :| HeldAs(sys, blobs, a, p) && Flatten(p) == x;
    var q :| HeldAs(sys, blobs, b, q) && Flatten(q) == y;
    AllRefsAppend(a, b);
    HeldAppend(sys, blobs, a, p, b, q);
    FlattenAppend(p, q);
  }

  lemma IntactNothing(sys: System, blobs: Blobs)
    ensures Intact(sys, blobs, [], [])
  {
    var none: seq<Bytes> := [];
    assert HeldAs(sys, blobs, [], none) && Flatten(none) == [];
  }

  /** From whatever is left of the blobs, whichever backends are down: the data if enough of every chunk
      can be read, otherwise an error. It is never anything else. */
  lemma HeldReads(sys: System, blobs: Blobs, less: Blobs, down: set<BackendId>, chunks: seq<Chunk>, data: Bytes)
    requires Held(sys, blobs, chunks, data) && Keeps(less, blobs)
    ensures ReadChunks(sys, less, down, chunks, KIND) == if AllEnough(less, down, chunks) then Some(data) else None
  {
    var pieces :| HeldAs(sys, blobs, chunks, pieces) && Flatten(pieces) == data;
    forall i | 0 <= i < |chunks|
      ensures Exact(sys, blobs, chunks[i], KIND, pieces[i])
    {
      assert Holds(sys, blobs, chunks[i], KIND, pieces[i]);
    }
    PiecesRead(sys, blobs, less, down, chunks, KIND, pieces);
  }

  /** While no blob is missing, enough can be read whichever tolerated backends are down. */
  lemma IntactIsEnough(sys: System, blobs: Blobs, less: Blobs, down: set<BackendId>, chunks: seq<Chunk>, data: Bytes)
    requires Held(sys, blobs, chunks, data) && Keeps(less, blobs) && AllRefs(chunks) <= less.Keys
    requires |down| <= Max(0, sys.tolerance)
    ensures AllEnough(less, down, chunks)
  {
    var pieces :| HeldAs(sys, blobs, chunks, pieces) && Flatten(pieces) == data;
    forall i | 0 <= i < |chunks|
      ensures Enough(less, down, chunks[i])
    {
      assert Holds(sys, blobs, chunks[i], KIND, pieces[i]);
      RefsAreAmong(chunks, i);
      ReadChunkFrame(sys, blobs, less, down, chunks[i], KIND);
      assert Enough(blobs, down, chunks[i]);
    }
  }

  // ---------------------------------------------------------------------
  // Operations
  // ---------------------------------------------------------------------

  /** What happens to the store: blobs that streams upload and clean up, and operations. */
  datatype Step =
    | Upload(added: Blobs, burned: set<Address>) // burned: names handed out whose blobs are already gone
    | Discard(gone: set<Address>)
    | Put(k: ObjectKey, data: Bytes, level: int, chunks: seq<Chunk>)
    | UploadPart(p: PartKey, data: Bytes, chunks: seq<Chunk>)
    | Create(id: UploadId, target: ObjectKey, level: int)
    | Complete(id: UploadId)
    | Abort(id: UploadId)
    | Delete(k: ObjectKey)
    | CreateBucket(bucket: string)
    | DeleteBucket(bucket: string)
    | NewKey(key: nat)
    | DeleteFails(k: ObjectKey, after: Blobs)  // a delete that gave up, perhaps after removing some blobs

  /** No row refers to any of these addresses. */
  ghost predicate Unlisted(t: Tables, refs: set<Address>) {
    forall o {:trigger ChunksOf(t, o)} :: AllRefs(ChunksOf(t, o)) !! refs
  }

  /** The chunks hold the data, on blobs that are there and that no other list refers to. */
  ghost predicate Streamed(env: Env, s: Store, chunks: seq<Chunk>, data: Bytes) {
    AllWellFormed(chunks) && Unlisted(s.tables, AllRefs(chunks)) && Intact(env.sys, s.blobs, chunks, data)
  }

  ghost predicate Enabled(env: Env, s: Store, step: Step) {
    match step
    case Upload(added, burned) => added.Keys !! s.used && burned !! s.used
    case Discard(gone) => Unlisted(s.tables, gone)
    case Put(_, data, _, chunks) => Streamed(env, s, chunks, data)
    case UploadPart(_, data, chunks) => Streamed(env, s, chunks, data)
    case Delete(k) => RefsOf(s, k) <= s.blobs.Keys
    case DeleteFails(k, after) => OnlyRemoved(s.blobs, after, RefsOf(s, k))
    case _ => true
  }

  /** The addresses of a listed object's blobs. */
  ghost function RefsOf(s: Store, k: ObjectKey): set<Address> {
    if k in s.tables.objects then AllRefs(ChunksOf(s.tables, OfObject(k))) else {}
  }

  ghost function ChunksOf(t: Tables, o: Owner): seq<Chunk> {
    if Queryable(t) then GetChunks(t, o) else []
  }

  /** The metadata transaction; none when the operation reports an error. */
  ghost function Transaction(env: Env, t: Tables, step: Step): Option<Tables> {
    match step
    case Put(k, data, level, chunks) =>
      PutObjectTx(t, k, ObjectRow(env.digest(data), |data|, Compression(Zstd, level)), chunks)
    case UploadPart(p, data, chunks) => PutPartTx(t, p, PartRow(env.digest(data), |data|), chunks)
    case Create(id, k, level) => CreateUploadTx(t, id, UploadRow(k.bucket, k.key, Compression(Zstd, level)))
    case Complete(id) => if Queryable(t) then CompleteTx(t, env.digest, id) else None
    case Abort(id) => AbortTx(t, id)
    case Delete(k) => DeleteObjectTx(t, k)
    case CreateBucket(bucket) => CreateBucketTx(t, bucket)
    case DeleteBucket(bucket) => DeleteBucketTx(t, bucket)
    case NewKey(key) => Some(t.(kmsKeys := t.kmsKeys + {key}))
    case _ => None
  }

  ghost function BlobsAfter(s: Store, step: Step): Blobs {
    match step
    case Upload(added, _) => s.blobs + added
    case Discard(gone) => s.blobs - gone
    case DeleteFails(_, after) => after
    case Delete(k) => s.blobs - RefsOf(s, k)
    case _ => s.blobs
  }

  function UsedAfter(s: Store, step: Step): set<Address> {
    if step.Upload? then s.used + step.added.Keys + step.burned else s.used
  }

  ghost function Apply(env: Env, s: Store, step: Step): Store {
    var t := Transaction(env, s.tables, step);
    Store(if t.Some? then t.value else s.tables, BlobsAfter(s, step), UsedAfter(s, step))
  }

  ghost predicate Legal(env: Env, s: Store, steps: seq<Step>)
    decreases |steps|
  {
    steps == [] || (Enabled(env, s, steps[0]) && Legal(env, Apply(env, s, steps[0]), steps[1..]))
  }

  ghost function Final(env: Env, s: Store, steps: seq<Step>): Store
    decreases |steps|
  {
    if steps == [] then s else Final(env, Apply(env, s, steps[0]), steps[1..])
  }

  // ---------------------------------------------------------------------
  // What a client is promised
  // ---------------------------------------------------------------------

  datatype Entity = Entity(data: Bytes, etag: nat)

  datatype Spec = Spec(
    buckets: set<string>,
    objects: map<ObjectKey, Entity>,
    uploads: map<UploadId, ObjectKey>,
    parts: map<PartKey, Bytes>,
    damaged: set<ObjectKey>) // a delete of the object gave up, so blobs may be missing

  /** The contents of the parts, one after the other. */
  function JoinParts(parts: map<PartKey, Bytes>, order: seq<PartKey>): Bytes
    requires forall p :: p in order ==> p in parts
  {
    if order == [] then [] else assert order[0] in order; parts[order[0]] + JoinParts(parts, order[1..])
  }

  /** Their checksums, one after the other. */
  function JoinDigests(digest: Bytes -> nat, parts: map<PartKey, Bytes>, order: seq<PartKey>): Bytes
    requires forall p :: p in order ==> p in parts
  {
    if order == [] then []
    else assert order[0] in order; BigEndian(digest(parts[order[0]]), 8) + JoinDigests(digest, parts, order[1..])
  }

  /** The object an upload becomes. */
  function Assembled(digest: Bytes -> nat, parts: map<PartKey, Bytes>, id: UploadId): Entity {
    TakenAreParts(parts.Keys, id);
    var order := Taken(parts.Keys, id);
    Entity(JoinParts(parts, order), digest(JoinDigests(digest, parts, order)))
  }

  function WithoutUploads(spec: Spec, ids: set<UploadId>): Spec {
    spec.(uploads := spec.uploads - ids, parts := map p | p in spec.parts && p.upload !in ids :: spec.parts[p])
  }

  /** The upload is gone and its target is the entity. */
  function Handed(spec: Spec, id: UploadId, e: Entity): Spec
    requires id in spec.uploads
  {
    var k := spec.uploads[id];
    WithoutUploads(spec, {id}).(objects := spec.objects[k := e], damaged := spec.damaged - {k})
  }

  /** The effect of an operation that succeeded. */
  function Effect(digest: Bytes -> nat, spec: Spec, step: Step): Spec {
    match step
    case Put(k, data, _, _) =>
      spec.(buckets := spec.buckets + {k.bucket}, objects := spec.objects[k := Entity(data, digest(data))],
            damaged := spec.damaged - {k})
    case UploadPart(p, data, _) => spec.(parts := spec.parts[p := data])
    case Create(id, k, _) => spec.(buckets := spec.buckets + {k.bucket}, uploads := spec.uploads[id := k])
    case Complete(id) =>
      if id !in spec.uploads then spec
      else Handed(spec, id, Assembled(digest, spec.parts, id))
    case Abort(id) => WithoutUploads(spec, {id})
    case Delete(k) => spec.(objects := spec.objects - {k}, damaged := spec.damaged - {k})
    case CreateBucket(bucket) => spec.(buckets := spec.buckets + {bucket})
    case DeleteBucket(bucket) =>
      WithoutUploads(spec, set u | u in spec.uploads && spec.uploads[u].bucket == bucket)
      .(buckets := spec.buckets - {bucket},
        objects := map k | k in spec.objects && k.bucket != bucket :: spec.objects[k],
        damaged := set k | k in spec.damaged && k.bucket != bucket)
    case _ => spec
  }

  const NO_SPEC: Spec := Spec({}, map[], map[], map[], {})

  ghost predicate Succeeds(env: Env, s: Store, step: Step) {
    Transaction(env, s.tables, step).Some?
  }

  ghost function SpecAfter(env: Env, s: Store, spec: Spec, step: Step): Spec {
    if Succeeds(env, s, step) then Effect(env.digest, spec, step)
    else if step.DeleteFails? && step.k in spec.objects then spec.(damaged := spec.damaged + {step.k})
    else spec
  }

  /** What a client is promised after a run. */
  ghost function Promised(env: Env, s: Store, spec: Spec, steps: seq<Step>): Spec
    decreases |steps|
  {
    if steps == [] then spec
    else Promised(env, Apply(env, s, steps[0]), SpecAfter(env, s, spec, steps[0]), steps[1..])
  }

  // ---------------------------------------------------------------------
  // The refinement relation
  // ---------------------------------------------------------------------

  function Content(spec: Spec, o: Owner): Option<Bytes> {
    match o
    case OfObject(k) => if k in spec.objects then Some(spec.objects[k].data) else None
    case OfPart(p) => if p in spec.parts then Some(spec.parts[p]) else None
  }

  predicate ObjectOk(row: ObjectRow, e: Entity) {
    row.size == |e.data| && row.etag == e.etag && row.compression.kind == KIND
  }

  predicate UploadOk(row: UploadRow, k: ObjectKey) {
    Target(row) == k && row.compression.kind == KIND
  }

  predicate PartOk(digest: Bytes -> nat, row: PartRow, data: Bytes) {
    row == PartRow(digest(data), |data|)
  }

  /** The rows say what the specification says. */
  ghost predicate RowsMatch(digest: Bytes -> nat, t: Tables, spec: Spec) {
    && t.buckets == spec.buckets
    && t.objects.Keys == spec.objects.Keys
    && (forall k :: k in spec.objects ==> ObjectOk(t.objects[k], spec.objects[k]))
    && t.uploads.Keys == spec.uploads.Keys
    && (forall u :: u in spec.uploads ==> UploadOk(t.uploads[u], spec.uploads[u]))
    && t.parts.Keys == spec.parts.Keys
    && (forall p :: p in spec.parts ==> PartOk(digest, t.parts[p], spec.parts[p]))
  }

  ghost predicate DataOk(sys: System, blobs: Blobs, l: Listing, data: Option<Bytes>) {
    data.Some? && Intact(sys, blobs, l.chunks, data.value)
  }

  /** Every owner's chunks hold what the specification says. */
  ghost predicate DataMatch(sys: System, blobs: Blobs, lists: Lists, spec: Spec) {
    forall o {:trigger DataOk(sys, blobs, lists[o], Content(spec, o))} ::
      o in lists ==> DataOk(sys, blobs, lists[o], Content(spec, o))
  }

  ghost predicate Separate(a: Listing, b: Listing) {
    AllRefs(a.chunks) !! AllRefs(b.chunks)
  }

  /** No two owners share a blob. */
  ghost predicate Apart(lists: Lists) {
    forall a, b {:trigger Separate(lists[a], lists[b])} ::
      a in lists && b in lists && a != b ==> Separate(lists[a], lists[b])
  }

  /** What is left on the backends, compared with all that was ever stored for the lists. */
  ghost predicate Present(s: Store, full: Blobs, lists: Lists, damaged: set<ObjectKey>) {
    && Keeps(s.blobs, full) && full.Keys <= s.used && s.blobs.Keys <= s.used
    && forall o {:trigger AllThere(s.blobs, lists[o])} ::
         o in lists && !(o.OfObject? && o.name in damaged) ==> AllThere(s.blobs, lists[o])
  }

  ghost predicate AllThere(blobs: Blobs, l: Listing) {
    AllRefs(l.chunks) <= blobs.Keys
  }

  /** `full` has the blobs of every listed chunk, including those that deletes which gave up have removed. */
  ghost predicate Related(env: Env, s: Store, full: Blobs, lists: Lists, spec: Spec) {
    && Sound(env, s.tables, full, lists, spec) && Present(s, full, lists, spec.damaged)
    && spec.damaged <= spec.objects.Keys
  }

  ghost predicate Sound(env: Env, t: Tables, full: Blobs, lists: Lists, spec: Spec) {
    && Consistent(t, lists) && RowsMatch(env.digest, t, spec)
    && DataMatch(env.sys, full, lists, spec) && Apart(lists)
  }

  /** All that was ever stored, after the step. */
  ghost function FullAfter(full: Blobs, step: Step): Blobs {
    match step
    case Upload(added, _) => full + added
    case _ => full
  }

  const NO_STORE: Store := Store(NO_TABLES, map[], {})

  lemma EmptyRelated(env: Env)
    ensures Related(env, NO_STORE, map[], map[], NO_SPEC)
  {
    EmptyIsConsistent();
  }

  /** The keys a step names: the one it writes or deletes, or all of a bucket. */
  ghost predicate Touches(s: Store, step: Step, k: ObjectKey) {
    match step
    case Put(x, _, _, _) => k == x
    case Delete(x) => k == x
    case DeleteFails(x, _) => k == x
    case Complete(id) => id in s.tables.uploads && k == Target(s.tables.uploads[id])
    case DeleteBucket(bucket) => k.bucket == bucket
    case _ => false
  }

  /** The lists of all other objects are the same. */
  ghost predicate Spares(s: Store, step: Step, lists: Lists, next: Lists) {
    forall k {:trigger OfObject(k)} :: OfObject(k) in lists && !Touches(s, step, k) ==>
      OfObject(k) in next && next[OfObject(k)] == lists[OfObject(k)]
  }
}
