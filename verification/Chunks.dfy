/** One chunk: compress, encrypt and shard it; collect, decrypt and decompress it again. */
module Chunks {
  import opened Base
  import opened ErasureCode
  import opened Layout
  import opened Backends
  import opened Sharding
  import opened Collecting
  import opened FaultTolerance
  import XorCode

  datatype EncryptionType = NoEncryption | Aes256Gcm | ChaCha20Poly1305

  datatype CompressionType = NoCompression | Zstd

  datatype Compression = Compression(kind: CompressionType, level: int)

  datatype Chunk = Chunk(
    id: nat,
    size: nat,
    segmentSize: nat,
    dataCount: nat,
    parityCount: nat,
    encryption: EncryptionType,
    keyId: nat,
    shards: seq<Shard>)

  /** The compression and encryption libraries. Decompression looks only at the kind. */
  datatype Codec = Codec(
    compress: (Bytes, Compression) -> Option<Bytes>,
    decompress: (Bytes, CompressionType) -> Option<Bytes>,
    encrypt: (Bytes, EncryptionType, nat) -> Option<Bytes>,
    decrypt: (Bytes, EncryptionType, nat) -> Option<Bytes>)

  ghost predicate Inverse(codec: Codec) {
    && (forall x, c: Compression :: codec.compress(x, c).Some? ==>
          codec.decompress(codec.compress(x, c).value, c.kind) == Some(x))
    && (forall x, e, k :: codec.encrypt(x, e, k).Some? ==>
          codec.decrypt(codec.encrypt(x, e, k).value, e, k) == Some(x))
  }

  /** The configured system. */
  datatype System = System(code: Code, codec: Codec, backends: seq<BackendId>, tolerance: int)

  /** What start-up checks, plus the hypotheses on the libraries. */
  ghost predicate Configured(sys: System) {
    && IsMDS(sys.code) && Inverse(sys.codec)
    && Distinct(sys.backends) && sys.backends != [] && sys.tolerance < |sys.backends|
  }

  /** Libraries that neither compress nor encrypt. */
  function PlainCodec(): Codec {
    Codec((x, _) => Some(x), (x, _) => Some(x), (x, _, _) => Some(x), (x, _, _) => Some(x))
  }

  /** The hypotheses are consistent: two backends with the single-parity code meet them. */
  lemma ConfiguredIsPossible()
    ensures Configured(System(XorCode.Xor(), PlainCodec(), ["a", "b"], 1))
  {
    XorCode.XorIsMDS();
    assert "a"[0] != "b"[0];
  }

  // ---------------------------------------------------------------------
  // Reading
  // ---------------------------------------------------------------------

  function Trim(data: Bytes, size: nat): Bytes {
    if |data| > size then data[..size] else data
  }

  function ReadChunk(sys: System, blobs: Blobs, down: set<BackendId>, c: Chunk, kind: CompressionType): Option<Bytes> {
    match Collect(sys.code, blobs, down, c.shards, c.segmentSize, c.dataCount, c.parityCount)
    case Err(_) => None
    case Ok(collected) =>
      match sys.codec.decrypt(Trim(collected, c.size), c.encryption, c.keyId)
      case None => None
      case Some(compressed) => sys.codec.decompress(compressed, kind)
  }

  function Join(a: Option<Bytes>, b: Option<Bytes>): Option<Bytes> {
    if a.Some? && b.Some? then Some(a.value + b.value) else None
  }

  lemma JoinAssociates(a: Option<Bytes>, b: Option<Bytes>, c: Option<Bytes>)
    ensures Join(Join(a, b), c) == Join(a, Join(b, c))
  {
    if a.Some? && b.Some? && c.Some? {
      assert (a.value + b.value) + c.value == a.value + (b.value + c.value);
    }
  }

  function ReadChunks(sys: System, blobs: Blobs, down: set<BackendId>, chunks: seq<Chunk>,
                      kind: CompressionType): Option<Bytes> {
    if chunks == [] then Some([])
    else Join(ReadChunk(sys, blobs, down, chunks[0], kind), ReadChunks(sys, blobs, down, chunks[1..], kind))
  }

  lemma {:induction false} ReadChunksAppend(sys: System, blobs: Blobs, down: set<BackendId>, a: seq<Chunk>,
                                            b: seq<Chunk>, kind: CompressionType)
    ensures ReadChunks(sys, blobs, down, a + b, kind)
         == Join(ReadChunks(sys, blobs, down, a, kind), ReadChunks(sys, blobs, down, b, kind))
  {
    var rb := ReadChunks(sys, blobs, down, b, kind);
    if a == [] {
      assert a + b == b;
      assert rb.Some? ==> [] + rb.value == rb.value;
    } else {
      assert (a + b)[0] == a[0] && (a + b)[1..] == a[1..] + b;
      ReadChunksAppend(sys, blobs, down, a[1..], b, kind);
      JoinAssociates(ReadChunk(sys, blobs, down, a[0], kind), ReadChunks(sys, blobs, down, a[1..], kind), rb);
    }
  }

  /** One round of the collecting loop. */
  method CollectChunk(store: BlobStore, sys: System, down: set<BackendId>, c: Chunk, kind: CompressionType)
    returns (r: Option<Bytes>)
    ensures r == ReadChunk(sys, store.blobs, down, c, kind)
  {
    var collected := CollectShards(store, sys.code, down, c.shards, c.segmentSize, c.dataCount, c.parityCount);
    if collected.Err? {
      return None;
    }
    var encrypted := collected.value;
    if |encrypted| > c.size {
      encrypted := encrypted[..c.size];
    }
    var compressed := sys.codec.decrypt(encrypted, c.encryption, c.keyId);
    if compressed.None? {
      return None;
    }
    r := sys.codec.decompress(compressed.value, kind);
  }

  /** `CollectChunks`. */
  method CollectChunks(store: BlobStore, sys: System, down: set<BackendId>, chunks: seq<Chunk>, kind: CompressionType)
    returns (r: Option<Bytes>)
    ensures r == ReadChunks(sys, store.blobs, down, chunks, kind)
  {
    var data: Bytes := [];
    var i := 0;
    ghost var all := ReadChunks(sys, store.blobs, down, chunks, kind);
    assert all.Some? ==> [] + all.value == all.value;
    while i < |chunks|
      invariant 0 <= i <= |chunks|
      invariant all == Join(Some(data), ReadChunks(sys, store.blobs, down, chunks[i..], kind))
    {
      assert chunks[i..][1..] == chunks[i + 1..];
      var piece := CollectChunk(store, sys, down, chunks[i], kind);
      JoinAssociates(Some(data), piece, ReadChunks(sys, store.blobs, down, chunks[i + 1..], kind));
      if piece.None? {
        return None;
      }
      data := data + piece.value;
      i := i + 1;
    }
    assert chunks[|chunks|..] == [] && data + [] == data;
    return Some(data);
  }

  // ---------------------------------------------------------------------
  // Writing
  // ---------------------------------------------------------------------

  /** Enough distinct segments of the chunk can be read. */
  ghost predicate Enough(blobs: Blobs, down: set<BackendId>, c: Chunk) {
    |Readable(blobs, down, c.shards, c.dataCount + c.parityCount)| >= c.dataCount
  }

  /** From whatever is left of the blobs, and whichever backends are down: the piece if enough segments
      can be read, otherwise an error, and never anything else. */
  ghost predicate Exact(sys: System, blobs: Blobs, c: Chunk, kind: CompressionType, piece: Bytes) {
    forall less, down {:trigger ReadChunk(sys, less, down, c, kind)} :: Keeps(less, blobs) ==>
      ReadChunk(sys, less, down, c, kind) == if Enough(less, down, c) then Some(piece) else None
  }

  /** Whichever tolerated set of backends is down, enough segments can be read. */
  ghost predicate Tolerant(sys: System, blobs: Blobs, c: Chunk) {
    forall down {:trigger Enough(blobs, down, c)} :: |down| <= Max(0, sys.tolerance) ==> Enough(blobs, down, c)
  }

  ghost predicate Holds(sys: System, blobs: Blobs, c: Chunk, kind: CompressionType, piece: Bytes) {
    Exact(sys, blobs, c, kind, piece) && Tolerant(sys, blobs, c)
  }

  /** What the metadata relies on: the shard ranges partition the segments, and a key only with a cipher. */
  ghost predicate WellFormed(c: Chunk) {
    && Covers(c.shards, 0, c.dataCount + c.parityCount) && c.dataCount > 0
    && (c.encryption.NoEncryption? ==> c.keyId == 0)
  }

  /** The intermediate results of making a chunk. */
  datatype Packing = Packing(compressed: Bytes, encrypted: Bytes, out: Sharded)

  /** The chunk is what compressing, encrypting and sharding the piece gave. */
  ghost predicate PackedBy(sys: System, blobs: Blobs, piece: Bytes, comp: Compression, encryption: EncryptionType,
                           c: Chunk, w: Packing) {
    && sys.codec.compress(piece, comp) == Some(w.compressed)
    && sys.codec.encrypt(w.compressed, encryption, c.keyId) == Some(w.encrypted)
    && (encryption.NoEncryption? ==> c.keyId == 0)
    && Encodes(sys.code, sys.tolerance, sys.backends, w.encrypted, blobs, w.out)
    && MaxLast(w.out.shards) + 1 >= w.out.dataCount
    && c == Chunk(c.id, |w.encrypted|, w.out.size, w.out.dataCount, MaxLast(w.out.shards) + 1 - w.out.dataCount,
                  encryption, c.keyId, w.out.shards)
  }

  ghost predicate Packed(sys: System, blobs: Blobs, piece: Bytes, comp: Compression, encryption: EncryptionType,
                         c: Chunk) {
    exists w :: PackedBy(sys, blobs, piece, comp, encryption, c, w)
  }

  method LargestLast(shards: seq<Shard>) returns (largest: nat)
    ensures largest == MaxLast(shards)
  {
    largest := 0;
    var i := 0;
    while i < |shards|
      invariant 0 <= i <= |shards| && MaxLast(shards) == Max(largest, MaxLast(shards[i..]))
    {
      assert shards[i..][1..] == shards[i + 1..];
      if shards[i].last > largest {
        largest := shards[i].last;
      }
      i := i + 1;
    }
  }

  /** The libraries pack the piece, and the erasure code takes it at the segment size that the limits ask for. */
  ghost predicate Packable(sys: System, limits: map<BackendId, nat>, piece: Bytes, comp: Compression,
                           encryption: EncryptionType, key: nat) {
    match sys.codec.compress(piece, comp)
    case None => false
    case Some(compressed) =>
      match sys.codec.encrypt(compressed, encryption, if encryption.NoEncryption? then 0 else key)
      case None => false
      case Some(encrypted) =>
        encrypted != [] && Encodable(sys.code, sys.tolerance, limits, sys.backends, |encrypted|)
  }

  lemma EncodableIsRegistered(sys: System, limits: map<BackendId, nat>, len: nat)
    requires Encodable(sys.code, sys.tolerance, limits, sys.backends, len)
    ensures Registered(limits, sys.backends)
  {
  }

  /** `processChunk`. `id` is the new chunk's random id, `key` the id of the key created for it. */
  method ProcessChunk(store: BlobStore, sys: System, piece: Bytes, encryption: EncryptionType, comp: Compression,
                      id: nat, key: nat, refused: set<Address>)
    returns (r: Option<Chunk>)
    requires Configured(sys) && store.Valid()
    requires forall b :: b in store.limits ==> store.limits[b] > 0
    modifies store
    ensures store.Valid() && store.nextName >= old(store.nextName)
    ensures Grew(old(store.blobs), old(store.used), store.blobs, store.used)
    ensures r.Some? ==> r.value.id == id && r.value.keyId == if encryption.NoEncryption? then 0 else key
    ensures r.Some? ==> Packed(sys, store.blobs, piece, comp, encryption, r.value)
    ensures r.Some? ==> Refs(r.value) <= store.blobs.Keys && Refs(r.value) !! old(store.used) + refused
    ensures r.Some? ==> r.value.encryption == encryption && OneEach(r.value.shards)
    ensures r.Some? ==> Packable(sys, store.limits, piece, comp, encryption, key)
    ensures r.None? && Packable(sys, store.limits, piece, comp, encryption, key) ==>
              Refuses(refused, sys.backends, old(store.nextName))
  {
    var compressed := sys.codec.compress(piece, comp);
    if compressed.None? {
      return None;
    }
    var keyId := if encryption.NoEncryption? then 0 else key;
    var encrypted := sys.codec.encrypt(compressed.value, encryption, keyId);
    if encrypted.None? {
      return None;
    }
    var sharded := ShardData(store, sys.code, sys.tolerance, encrypted.value, sys.backends, refused);
    if sharded.Err? {
      if Packable(sys, store.limits, piece, comp, encryption, key) {
        EncodableIsRegistered(sys, store.limits, |encrypted.value|);
        assert sharded == Err(sharded.error);
        assert sharded.error.UploadFailed?;
      }
      return None;
    }
    var out := sharded.value;
    var largest := LargestLast(out.shards);
    ParityIsLeft(sys, store.blobs, encrypted.value, out);
    var c := Chunk(id, |encrypted.value|, out.size, out.dataCount, largest + 1 - out.dataCount, encryption, keyId,
                   out.shards);
    assert PackedBy(sys, store.blobs, piece, comp, encryption, c, Packing(compressed.value, encrypted.value, out));
    PackedIsStored(sys, store.blobs, piece, comp, encryption, c);
    return Some(c);
  }

  lemma ParityIsLeft(sys: System, blobs: Blobs, encrypted: Bytes, out: Sharded)
    requires Configured(sys) && Encodes(sys.code, sys.tolerance, sys.backends, encrypted, blobs, out)
    ensures MaxLast(out.shards) + 1 >= out.dataCount
  {
    OutcomeOfEncoding(sys.code, sys.tolerance, sys.backends, encrypted, blobs, out, blobs, {});
  }

  lemma UnpackPacked(codec: Codec, piece: Bytes, compressed: Bytes, encrypted: Bytes, comp: Compression,
                     e: EncryptionType, k: nat)
    requires Inverse(codec)
    requires codec.compress(piece, comp) == Some(compressed) && codec.encrypt(compressed, e, k) == Some(encrypted)
    ensures codec.decrypt(encrypted, e, k) == Some(compressed)
    ensures codec.decompress(compressed, comp.kind) == Some(piece)
  {
  }

  lemma TrimJoined(encrypted: Bytes, size: nat)
    requires size > 0
    ensures Trim(Flatten(Segments(encrypted, size)), |encrypted|) == encrypted
  {
    SegmentsRestore(encrypted, size);
    var joined := Flatten(Segments(encrypted, size));
    assert joined == joined[..|joined|];
  }

  lemma ReadChunkIs(sys: System, less: Blobs, down: set<BackendId>, c: Chunk, kind: CompressionType, joined: Bytes,
                    encrypted: Bytes, compressed: Bytes, piece: Bytes)
    requires Collect(sys.code, less, down, c.shards, c.segmentSize, c.dataCount, c.parityCount)
          == if Enough(less, down, c) then Ok(joined) else Err(NotEnoughShards)
    requires Trim(joined, c.size) == encrypted
    requires sys.codec.decrypt(encrypted, c.encryption, c.keyId) == Some(compressed)
    requires sys.codec.decompress(compressed, kind) == Some(piece)
    ensures ReadChunk(sys, less, down, c, kind) == if Enough(less, down, c) then Some(piece) else None
  {
  }

  lemma PackedReads(sys: System, blobs: Blobs, piece: Bytes, comp: Compression, e: EncryptionType, c: Chunk,
                    w: Packing, less: Blobs, down: set<BackendId>)
    requires Configured(sys) && PackedBy(sys, blobs, piece, comp, e, c, w) && Keeps(less, blobs)
    ensures ReadChunk(sys, less, down, c, comp.kind) == if Enough(less, down, c) then Some(piece) else None
  {
    OutcomeOfEncoding(sys.code, sys.tolerance, sys.backends, w.encrypted, blobs, w.out, less, down);
    TrimJoined(w.encrypted, w.out.size);
    UnpackPacked(sys.codec, piece, w.compressed, w.encrypted, comp, e, c.keyId);
    ReadChunkIs(sys, less, down, c, comp.kind, Flatten(Segments(w.encrypted, w.out.size)), w.encrypted, w.compressed,
                piece);
  }

  lemma PackedIsExact(sys: System, blobs: Blobs, piece: Bytes, comp: Compression, e: EncryptionType, c: Chunk,
                      w: Packing)
    requires Configured(sys) && PackedBy(sys, blobs, piece, comp, e, c, w)
    ensures Exact(sys, blobs, c, comp.kind, piece)
  {
    forall less, down: set<BackendId> | Keeps(less, blobs)
      ensures ReadChunk(sys, less, down, c, comp.kind) == if Enough(less, down, c) then Some(piece) else None
    {
      PackedReads(sys, blobs, piece, comp, e, c, w, less, down);
    }
  }

  lemma PackedIsTolerant(sys: System, blobs: Blobs, piece: Bytes, comp: Compression, e: EncryptionType, c: Chunk,
                         w: Packing)
    requires Configured(sys) && PackedBy(sys, blobs, piece, comp, e, c, w)
    ensures Tolerant(sys, blobs, c)
  {
    forall down: set<BackendId> | |down| <= Max(0, sys.tolerance)
      ensures Enough(blobs, down, c)
    {
      FailuresLeaveEnough(sys.code, sys.tolerance, sys.backends, w.encrypted, blobs, w.out, down);
    }
  }

  /** A chunk that was made from a piece holds that piece. */
  lemma PackedHolds(sys: System, blobs: Blobs, piece: Bytes, comp: Compression, e: EncryptionType, c: Chunk)
    requires Configured(sys) && Packed(sys, blobs, piece, comp, e, c)
    ensures Holds(sys, blobs, c, comp.kind, piece) && WellFormed(c)
  {
    var w :| PackedBy(sys, blobs, piece, comp, e, c, w);
    PackedIsExact(sys, blobs, piece, comp, e, c, w);
    PackedIsTolerant(sys, blobs, piece, comp, e, c, w);
    OutcomeOfEncoding(sys.code, sys.tolerance, sys.backends, w.encrypted, blobs, w.out, blobs, {});
    assert Segments(w.encrypted, w.out.size) != [];
  }

  lemma PackedIsStored(sys: System, blobs: Blobs, piece: Bytes, comp: Compression, e: EncryptionType, c: Chunk)
    requires Packed(sys, blobs, piece, comp, e, c)
    ensures Refs(c) <= blobs.Keys
  {
    var w :| PackedBy(sys, blobs, piece, comp, e, c, w);
    forall s | s in c.shards
      ensures AddressOf(s) in blobs
    {
      assert HoldsRange(blobs, s, Rows(sys.code, sys.tolerance, |sys.backends|, w.encrypted, w.out.size));
    }
  }

  // ---------------------------------------------------------------------
  // What reading depends on
  // ---------------------------------------------------------------------

  function Refs(c: Chunk): set<Address> {
    Addresses(c.shards)
  }

  /** Two stores agree on what a chunk refers to: same contents, or missing in both. */
  ghost predicate Agree(a: Blobs, b: Blobs, refs: set<Address>) {
    forall x :: x in refs ==> (x in a <==> x in b) && (x in a && x in b ==> a[x] == b[x])
  }

  /** Reading a chunk depends only on the blobs it refers to. */
  lemma ReadChunkFrame(sys: System, a: Blobs, b: Blobs, down: set<BackendId>, c: Chunk, kind: CompressionType)
    requires Agree(a, b, Refs(c))
    ensures ReadChunk(sys, a, down, c, kind) == ReadChunk(sys, b, down, c, kind)
    ensures Enough(a, down, c) <==> Enough(b, down, c)
  {
    forall s | s in c.shards
      ensures Read(a, {}, AddressOf(s)) == Read(b, {}, AddressOf(s))
    {
      assert AddressOf(s) in Refs(c);
    }
    GatherFrame(a, b, down, c.shards, c.segmentSize, Empty(c.dataCount + c.parityCount));
    ReadableFrame(a, b, down, c.shards, c.dataCount + c.parityCount);
  }

  function Restrict(blobs: Blobs, refs: set<Address>): Blobs {
    map x | x in blobs && x in refs :: blobs[x]
  }

  lemma ExactFrame(sys: System, a: Blobs, b: Blobs, c: Chunk, kind: CompressionType, piece: Bytes, less: Blobs,
                   down: set<BackendId>)
    requires Exact(sys, a, c, kind, piece) && Refs(c) <= a.Keys && Agree(a, b, Refs(c)) && Keeps(less, b)
    ensures ReadChunk(sys, less, down, c, kind) == if Enough(less, down, c) then Some(piece) else None
  {
    var part := Restrict(less, Refs(c));
    assert Keeps(part, a);
    assert Agree(less, part, Refs(c));
    ReadChunkFrame(sys, less, part, down, c, kind);
    assert ReadChunk(sys, part, down, c, kind) == if Enough(part, down, c) then Some(piece) else None;
  }

  /** What a chunk holds depends only on the blobs it refers to. */
  lemma HoldsFrame(sys: System, a: Blobs, b: Blobs, c: Chunk, kind: CompressionType, piece: Bytes)
    requires Holds(sys, a, c, kind, piece) && Refs(c) <= a.Keys && Agree(a, b, Refs(c))
    ensures Holds(sys, b, c, kind, piece)
  {
    forall less, down: set<BackendId> | Keeps(less, b)
      ensures ReadChunk(sys, less, down, c, kind) == if Enough(less, down, c) then Some(piece) else None
    {
      ExactFrame(sys, a, b, c, kind, piece, less, down);
    }
    forall down: set<BackendId> | |down| <= Max(0, sys.tolerance)
      ensures Enough(b, down, c)
    {
      ReadChunkFrame(sys, a, b, down, c, kind);
      assert Enough(a, down, c);
    }
  }

  // ---------------------------------------------------------------------
  // Lists of chunks
  // ---------------------------------------------------------------------

  /** Of every chunk, enough segments can be read. */
  ghost predicate AllEnough(blobs: Blobs, down: set<BackendId>, chunks: seq<Chunk>) {
    forall i {:trigger Enough(blobs, down, chunks[i])} :: 0 <= i < |chunks| ==> Enough(blobs, down, chunks[i])
  }

  lemma AllEnoughSplits(blobs: Blobs, down: set<BackendId>, a: seq<Chunk>, b: seq<Chunk>)
    ensures AllEnough(blobs, down, a + b) <==> AllEnough(blobs, down, a) && AllEnough(blobs, down, b)
  {
    var all := a + b;
    if AllEnough(blobs, down, all) {
      forall i | 0 <= i < |a|
        ensures Enough(blobs, down, a[i])
      {
        assert all[i] == a[i];
      }
      forall i | 0 <= i < |b|
        ensures Enough(blobs, down, b[i])
      {
        assert all[|a| + i] == b[i];
      }
    }
    if AllEnough(blobs, down, a) && AllEnough(blobs, down, b) {
      forall i | 0 <= i < |all|
        ensures Enough(blobs, down, all[i])
      {
        assert all[i] == if i < |a| then a[i] else b[i - |a|];
      }
    }
  }

  /** A list reads as its pieces if enough of every chunk can be read, and not at all otherwise. */
  lemma {:induction false} PiecesRead(sys: System, blobs: Blobs, less: Blobs, down: set<BackendId>, chunks: seq<Chunk>,
                                      kind: CompressionType, pieces: seq<Bytes>)
    requires |chunks| == |pieces| && Keeps(less, blobs)
    requires forall i :: 0 <= i < |chunks| ==> Exact(sys, blobs, chunks[i], kind, pieces[i])
    ensures ReadChunks(sys, less, down, chunks, kind)
         == if AllEnough(less, down, chunks) then Some(Flatten(pieces)) else None
    decreases |chunks|
  {
    if chunks != [] {
      assert Exact(sys, blobs, chunks[0], kind, pieces[0]);
      assert ReadChunk(sys, less, down, chunks[0], kind)
          == if Enough(less, down, chunks[0]) then Some(pieces[0]) else None;
      PiecesRead(sys, blobs, less, down, chunks[1..], kind, pieces[1..]);
      assert chunks == [chunks[0]] + chunks[1..];
      AllEnoughSplits(less, down, [chunks[0]], chunks[1..]);
      assert AllEnough(less, down, [chunks[0]]) <==> Enough(less, down, [chunks[0]][0]);
    }
  }
}
