/** Streams: the chunks made so far, what can be in the way of one, and what a failed one leaves. */
module Streaming {
  import opened Base
  import opened Layout
  import opened Backends
  import opened Sharding
  import opened Chunks
  import opened Metadata
  import opened ObjectStore
  import opened Deleting
  import opened Slices

  // ---------------------------------------------------------------------
  // The chunks made so far
  // ---------------------------------------------------------------------

  /** Each chunk holds its piece, on new addresses. */
  ghost predicate SoFar(sys: System, used: set<Address>, store: Blobs, chunks: seq<Chunk>, pieces: seq<Bytes>) {
    && AllWellFormed(chunks) && AllRefs(chunks) !! used && AllRefs(chunks) <= store.Keys
    && HeldAs(sys, store, chunks, pieces) && Separate(chunks)
  }

  /** Each chunk has its own blobs, and each of its shards a blob of its own. */
  ghost predicate Separate(chunks: seq<Chunk>) {
    forall i {:trigger OnItsOwn(chunks, i)} :: 0 <= i < |chunks| ==> OnItsOwn(chunks, i)
  }

  ghost predicate OnItsOwn(chunks: seq<Chunk>, i: nat)
    requires i < |chunks|
  {
    ApartFromOthers(chunks, i) && OneEach(chunks[i].shards)
  }

  lemma SeparateMore(chunks: seq<Chunk>, blobs: Blobs, c: Chunk)
    requires Separate(chunks) && AllRefs(chunks) <= blobs.Keys && OneEach(c.shards) && Refs(c) !! blobs.Keys
    ensures Separate(chunks + [c])
  {
    var more, k := chunks + [c], |chunks|;
    forall i | 0 <= i < k
      ensures Refs(chunks[i]) !! Refs(c)
    {
      RefsAreAmong(chunks, i);
    }
    forall i | 0 <= i <= k
      ensures OnItsOwn(more, i)
    {
      if i < k {
        assert OnItsOwn(chunks, i);
      }
    }
  }

  lemma NextChunk(sys: System, used: set<Address>, a: Blobs, b: Blobs, chunks: seq<Chunk>, pieces: seq<Bytes>,
                  c: Chunk, piece: Bytes)
    requires SoFar(sys, used, a, chunks, pieces) && Keeps(a, b)
    requires WellFormed(c) && Holds(sys, b, c, KIND, piece) && Refs(c) <= b.Keys && Refs(c) !! used
    requires OneEach(c.shards) && Refs(c) !! a.Keys
    ensures SoFar(sys, used, b, chunks + [c], pieces + [piece])
  {
    SeparateMore(chunks, a, c);
    HeldFrame(sys, a, b, chunks, pieces);
    assert HeldAs(sys, b, [c], [piece]);
    HeldAppend(sys, b, chunks, pieces, [c], [piece]);
    AllRefsAppend(chunks, [c]);
    assert AllRefs([c]) == Refs(c) + AllRefs([]);
  }

  lemma StillAdded(before: Blobs, used: set<Address>, grown: Blobs, grownUsed: set<Address>, after: Blobs,
                   chunks: seq<Chunk>)
    requires Grew(before, used, grown, grownUsed) && before.Keys <= used
    requires OnlyRemoved(grown, after, AllRefs(chunks)) && AllRefs(chunks) !! used
    ensures Added(before, used, after)
  {
  }

  /** What backends and the key table refuse while a call runs: puts and deletes by address, new keys by id. */
  datatype Faults = Faults(puts: set<Address>, deletes: set<Address>, keys: set<nat>)

  ghost predicate RefusesKey(keys: set<nat>, next: nat) {
    exists k :: k in keys && k >= next
  }

  /** What a stream came to: keys created, chunks completed, bytes they hold, and the blobs before any cleanup. */
  datatype Attempt = Attempt(keys: seq<nat>, made: seq<Chunk>, read: nat, grown: Blobs)

  /** Whatever key the chunk gets. */
  ghost predicate AlwaysPackable(sys: System, limits: map<BackendId, nat>, comp: Compression,
                                 encryption: EncryptionType, piece: Bytes) {
    forall key :: Packable(sys, limits, piece, comp, encryption, key)
  }

  /** What keeps a piece from becoming a chunk: the libraries, or a put or a new key that is refused. */
  ghost predicate Blocks(sys: System, limits: map<BackendId, nat>, comp: Compression, encryption: EncryptionType,
                         piece: Bytes, faults: Faults, name: nat, key: nat) {
    || !AlwaysPackable(sys, limits, comp, encryption, piece)
    || Refuses(faults.puts, sys.backends, name) || RefusesKey(faults.keys, key)
  }

  /** What keeps a stream from succeeding: something that blocks one of its slices. */
  ghost predicate Blocked(sys: System, limits: map<BackendId, nat>, comp: Compression, encryption: EncryptionType,
                          size: nat, data: Bytes, faults: Faults, name: nat, key: nat)
    requires size > 0
  {
    exists piece :: piece in Chop(data, size)
                    && Blocks(sys, limits, comp, encryption, piece, faults, name, key)
  }

  lemma BlockedBy(sys: System, limits: map<BackendId, nat>, comp: Compression, encryption: EncryptionType, size: nat,
                  data: Bytes, faults: Faults, name: nat, key: nat, piece: Bytes, later: nat, laterKey: nat)
    requires size > 0 && piece in Chop(data, size) && name <= later && key <= laterKey
    requires Blocks(sys, limits, comp, encryption, piece, faults, later, laterKey)
    ensures Blocked(sys, limits, comp, encryption, size, data, faults, name, key)
  {
    if Refuses(faults.puts, sys.backends, later) {
      var a :| a in faults.puts && a.backend in sys.backends && a.location >= later;
      assert Refuses(faults.puts, sys.backends, name);
    }
    assert Blocks(sys, limits, comp, encryption, piece, faults, name, key);
  }

  // ---------------------------------------------------------------------
  // Ids and keys
  // ---------------------------------------------------------------------

  /** The chunk has this id, and with a cipher this key. */
  predicate NamedAs(c: Chunk, id: nat, encryption: EncryptionType, keys: seq<nat>, i: nat) {
    c.id == id && c.encryption == encryption && (encryption.NoEncryption? || (i < |keys| && c.keyId == keys[i]))
  }

  /** Each chunk has its own id, and with a cipher its own key. */
  predicate Named(chunks: seq<Chunk>, ids: nat -> nat, encryption: EncryptionType, keys: seq<nat>) {
    forall i: nat {:trigger chunks[i]} :: i < |chunks| ==> NamedAs(chunks[i], ids(i), encryption, keys, i)
  }

  lemma NamedMore(chunks: seq<Chunk>, ids: nat -> nat, encryption: EncryptionType, keys: seq<nat>, more: seq<nat>)
    requires Named(chunks, ids, encryption, keys)
    ensures Named(chunks, ids, encryption, keys + more)
  {
  }

  lemma NamedOn(chunks: seq<Chunk>, c: Chunk, ids: nat -> nat, encryption: EncryptionType, keys: seq<nat>)
    requires Named(chunks, ids, encryption, keys) && NamedAs(c, ids(|chunks|), encryption, keys, |chunks|)
    ensures Named(chunks + [c], ids, encryption, keys)
  {
  }

  /** Keys that were not in the key table, and differ. */
  predicate NewKeys(known: set<nat>, keys: seq<nat>) {
    && (forall i :: 0 <= i < |keys| ==> keys[i] !in known)
    && (forall i, j :: 0 <= i < j < |keys| ==> keys[i] != keys[j])
  }

  /** There is a key for every chunk, or none at all without a cipher. */
  predicate KeyEach(encryption: EncryptionType, keys: seq<nat>, chunks: seq<Chunk>) {
    if encryption.NoEncryption? then keys == [] else |keys| == |chunks|
  }

  /** ... and maybe one for the chunk that failed. */
  predicate KeyEachOrMore(encryption: EncryptionType, keys: seq<nat>, chunks: seq<Chunk>) {
    if encryption.NoEncryption? then keys == [] else |chunks| <= |keys| <= |chunks| + 1
  }

  // ---------------------------------------------------------------------
  // Streams
  // ---------------------------------------------------------------------

  /** The completed chunks hold the first slices of the data, one each, on new addresses and with new keys. */
  ghost predicate Streams(sys: System, encryption: EncryptionType, ids: nat -> nat, size: nat, before: Store,
                          data: Bytes, run: Attempt)
    requires size > 0
  {
    && AtBoundary(data, size, run.read)
    && SoFar(sys, before.used, run.grown, run.made, Chop(data[..run.read], size))
    && Named(run.made, ids, encryption, run.keys) && NewKeys(before.tables.kmsKeys, run.keys)
    && KeyEachOrMore(encryption, run.keys, run.made)
  }

  lemma PackedNext(sys: System, encryption: EncryptionType, comp: Compression, used: set<Address>, grown: Blobs,
                   now: set<Address>, blobs: Blobs, chunks: seq<Chunk>, pieces: seq<Bytes>, c: Chunk, piece: Bytes)
    requires Configured(sys) && comp.kind == KIND && SoFar(sys, used, grown, chunks, pieces)
    requires now == used + grown.Keys && Keeps(grown, blobs) && Packed(sys, blobs, piece, comp, encryption, c)
    requires Refs(c) <= blobs.Keys && Refs(c) !! now && OneEach(c.shards)
    ensures SoFar(sys, used, blobs, chunks + [c], pieces + [piece])
  {
    PackedHolds(sys, blobs, piece, comp, encryption, c);
    NextChunk(sys, used, grown, blobs, chunks, pieces, c, piece);
  }

  /** One more chunk, on addresses that were not in use before it. */
  lemma StreamsOn(sys: System, encryption: EncryptionType, comp: Compression, ids: nat -> nat, size: nat,
                  before: Store, data: Bytes, run: Attempt, now: set<Address>, blobs: Blobs, later: set<Address>,
                  more: seq<nat>, upTo: nat, piece: Bytes, c: Chunk)
    requires Configured(sys) && size > 0 && Streams(sys, encryption, ids, size, before, data, run)
    requires Grew(before.blobs, before.used, run.grown, now) && Grew(run.grown, now, blobs, later)
    requires comp.kind == KIND && run.read < |data| && upTo == run.read + Min(size, |data| - run.read)
    requires piece == data[run.read..upTo]
    requires Packed(sys, blobs, piece, comp, encryption, c)
    requires Refs(c) <= blobs.Keys && Refs(c) !! now && OneEach(c.shards)
    requires KeyEach(encryption, run.keys, run.made) && NewKeys(before.tables.kmsKeys, run.keys + more)
    requires NamedAs(c, ids(|run.made|), encryption, run.keys + more, |run.made|)
    requires KeyEach(encryption, run.keys + more, run.made + [c])
    ensures Streams(sys, encryption, ids, size, before, data,
                    Attempt(run.keys + more, run.made + [c], upTo, blobs))
  {
    var slices := Chop(data[..run.read], size);
    ChopNext(data, size, run.read);
    assert Chop(data[..upTo], size) == slices + [piece];
    PackedNext(sys, encryption, comp, before.used, run.grown, now, blobs, run.made, slices, c, piece);
    NamedMore(run.made, ids, encryption, run.keys, more);
    NamedOn(run.made, c, ids, encryption, run.keys + more);
  }

  lemma StreamsStill(sys: System, encryption: EncryptionType, ids: nat -> nat, size: nat, before: Store, data: Bytes,
                     run: Attempt, blobs: Blobs, more: seq<nat>)
    requires size > 0 && Streams(sys, encryption, ids, size, before, data, run) && Keeps(run.grown, blobs)
    requires NewKeys(before.tables.kmsKeys, run.keys + more)
    requires KeyEachOrMore(encryption, run.keys + more, run.made)
    ensures Streams(sys, encryption, ids, size, before, data, Attempt(run.keys + more, run.made, run.read, blobs))
  {
    HeldFrame(sys, run.grown, blobs, run.made, Chop(data[..run.read], size));
    NamedMore(run.made, ids, encryption, run.keys, more);
  }

  /** A key for the next chunk, if it is to have one. */
  lemma KeysMore(known: set<nat>, now: set<nat>, encryption: EncryptionType, keys: seq<nat>, chunks: seq<Chunk>,
                 key: Option<nat>)
    requires NewKeys(known, keys) && KeyEach(encryption, keys, chunks) && now == known + Elements(keys)
    requires key.Some? ==> !encryption.NoEncryption? && key.value !in now
    ensures NewKeys(known, keys + OptionalKey(key)) && KeyEachOrMore(encryption, keys + OptionalKey(key), chunks)
  {
    if key.Some? {
      assert forall i :: 0 <= i < |keys| ==> keys[i] in Elements(keys);
    } else {
      assert keys + [] == keys;
    }
  }

  function OptionalKey(key: Option<nat>): seq<nat> {
    if key.Some? then [key.value] else []
  }

  /** A round makes one more chunk or none. */
  lemma StreamsNext(sys: System, encryption: EncryptionType, comp: Compression, ids: nat -> nat, size: nat,
                    before: Store, data: Bytes, run: Attempt, now: set<Address>, known: set<nat>, blobs: Blobs,
                    later: set<Address>, key: Option<nat>, upTo: nat, piece: Bytes, r: Option<Chunk>)
    requires Configured(sys) && size > 0 && Streams(sys, encryption, ids, size, before, data, run)
    requires Grew(before.blobs, before.used, run.grown, now) && Grew(run.grown, now, blobs, later)
    requires comp.kind == KIND && run.read < |data| && upTo == run.read + Min(size, |data| - run.read)
    requires piece == data[run.read..upTo]
    requires KeyEach(encryption, run.keys, run.made) && known == before.tables.kmsKeys + Elements(run.keys)
    requires key.Some? ==> !encryption.NoEncryption? && key.value !in known
    requires r.Some? ==> Packed(sys, blobs, piece, comp, encryption, r.value)
    requires r.Some? ==> Refs(r.value) <= blobs.Keys && Refs(r.value) !! now && OneEach(r.value.shards)
    requires r.Some? ==> NamedAs(r.value, ids(|run.made|), encryption, OptionalKey(key), 0)
    ensures Grew(before.blobs, before.used, blobs, later)
    ensures var keys := run.keys + OptionalKey(key);
            && Streams(sys, encryption, ids, size, before, data,
                       if r.Some? then Attempt(keys, run.made + [r.value], upTo, blobs)
                       else Attempt(keys, run.made, run.read, blobs))
            && (r.Some? ==> KeyEach(encryption, keys, run.made + [r.value]))
  {
    var more := OptionalKey(key);
    GrewTwice(before.blobs, before.used, run.grown, now, blobs, later);
    KeysMore(before.tables.kmsKeys, known, encryption, run.keys, run.made, key);
    if r.Some? {
      StreamsOn(sys, encryption, comp, ids, size, before, data, run, now, blobs, later, more, upTo, piece,
                r.value);
    } else {
      StreamsStill(sys, encryption, ids, size, before, data, run, blobs, more);
    }
  }

  /** After a failure: nothing but completed chunks' blobs is removed, and of every completed chunk all of them, unless
      a backend refuses to delete one of its own. */
  ghost predicate CleanedUp(run: Attempt, refused: set<Address>, after: Blobs) {
    && OnlyRemoved(run.grown, after, AllRefs(run.made))
    && (forall i :: 0 <= i < |run.made| && Refs(run.made[i]) !! refused ==> Refs(run.made[i]) !! after.Keys)
    && (AllRefs(run.made) !! refused ==> after == run.grown - AllRefs(run.made))
  }

  lemma FreshRemovable(blobs: Blobs, refused: set<Address>, chunks: seq<Chunk>, i: nat)
    requires i < |chunks| && Separate(chunks) && AllRefs(chunks) <= blobs.Keys
    ensures Refs(chunks[i]) !! refused <==> Removable(blobs, refused, chunks, i)
    ensures Refs(chunks[i]) <= AllRefs(chunks)
  {
    assert OnItsOwn(chunks, i);
    RefsAreAmong(chunks, i);
  }

  lemma StartsEmpty(sys: System, encryption: EncryptionType, ids: nat -> nat, size: nat, before: Store, data: Bytes)
    requires size > 0
    ensures Streams(sys, encryption, ids, size, before, data, Attempt([], [], 0, before.blobs))
  {
    assert data[..0] == [];
  }
}
