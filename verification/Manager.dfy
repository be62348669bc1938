/** The object manager: each call is a short run of the store's transition system. */
module Manager {
  import opened Base
  import opened Backends
  import opened Sharding
  import opened Collecting
  import opened Deleting
  import opened Chunks
  import opened Schema
  import opened Metadata
  import opened Multipart
  import opened ObjectStore
  import opened References
  import opened Slices
  import opened Streaming
  import D = Database

  // ---------------------------------------------------------------------
  // When the rows of a stream's chunks can be written
  // ---------------------------------------------------------------------

  /** The chunk ids are in no row and differ. */
  predicate NewIds(t: Tables, ids: nat -> nat, n: nat) {
    && (forall i: nat :: i < n ==> ids(i) !in t.chunks)
    && (forall i: nat, j: nat :: i < j < n ==> ids(i) != ids(j))
  }

  lemma StorableIff(t: Tables, chunks: seq<Chunk>, ids: nat -> nat, encryption: EncryptionType, keys: seq<nat>)
    requires Named(chunks, ids, encryption, keys) && forall k :: k in keys ==> k in t.kmsKeys
    ensures Storable(t, chunks) <==> NewIds(t, ids, |chunks|)
  {
    forall i: nat | i < |chunks|
      ensures Insertable(t, chunks[i]) <==> ids(i) !in t.chunks
    {
      assert NamedAs(chunks[i], ids(i), encryption, keys, i);
    }
    if Storable(t, chunks) {
      forall i: nat, j: nat | i < j < |chunks|
        ensures ids(i) != ids(j)
      {
        assert chunks[i].id != chunks[j].id;
      }
    }
  }

  lemma PutsIff(mid: Tables, before: Tables, k: ObjectKey, row: ObjectRow, chunks: seq<Chunk>, ids: nat -> nat,
                encryption: EncryptionType, keys: seq<nat>)
    requires (exists lists :: Consistent(mid, lists)) && AllWellFormed(chunks) && mid == WithKeys(before, keys)
    requires Named(chunks, ids, encryption, keys)
    ensures PutObjectTx(mid, k, row, chunks).Some? <==> NewIds(DeleteChunksOf(before, OfObject(k)), ids, |chunks|)
  {
    var lists :| Consistent(mid, lists);
    PutObjectConsistent(mid, lists, k, row, chunks);
    StorableIff(DeleteChunksOf(mid, OfObject(k)), chunks, ids, encryption, keys);
  }

  lemma PutsPartIff(mid: Tables, before: Tables, p: PartKey, row: PartRow, chunks: seq<Chunk>, ids: nat -> nat,
                    encryption: EncryptionType, keys: seq<nat>)
    requires (exists lists :: Consistent(mid, lists)) && AllWellFormed(chunks) && mid == WithKeys(before, keys)
    requires Named(chunks, ids, encryption, keys) && p.upload in mid.uploads
    ensures PutPartTx(mid, p, row, chunks).Some? <==> NewIds(DeleteChunksOf(before, OfPart(p)), ids, |chunks|)
  {
    var lists :| Consistent(mid, lists);
    PutPartConsistent(mid, lists, p, row, chunks);
    StorableIff(DeleteChunksOf(mid, OfPart(p)), chunks, ids, encryption, keys);
  }

  // ---------------------------------------------------------------------
  // Calls as runs
  // ---------------------------------------------------------------------

  function KeyAdded(t: Tables, key: Option<nat>): Tables {
    if key.Some? then t.(kmsKeys := t.kmsKeys + {key.value}) else t
  }

  function KeySteps(keys: seq<nat>): seq<Step> {
    seq(|keys|, i requires 0 <= i < |keys| => NewKey(keys[i]))
  }

  function WithKeys(t: Tables, keys: seq<nat>): Tables {
    t.(kmsKeys := t.kmsKeys + Elements(keys))
  }

  lemma WithOneMore(t: Tables, keys: seq<nat>, key: nat)
    ensures WithKeys(t, keys + [key]) == WithKeys(t, keys).(kmsKeys := WithKeys(t, keys).kmsKeys + {key})
  {
    assert Elements(keys + [key]) == Elements(keys) + {key};
  }

  lemma MaybeOneMore(t: Tables, keys: seq<nat>, key: Option<nat>)
    ensures WithKeys(t, keys + OptionalKey(key)) == KeyAdded(WithKeys(t, keys), key)
  {
    if key.Some? {
      WithOneMore(t, keys, key.value);
    } else {
      assert keys + [] == keys;
    }
  }

  /** Creating keys is a run of its own, and touches nothing else. */
  lemma {:induction false} KeysAreSteps(env: Env, s: Store, keys: seq<nat>)
    ensures Legal(env, s, KeySteps(keys)) && Final(env, s, KeySteps(keys)) == s.(tables := WithKeys(s.tables, keys))
    decreases |keys|
  {
    if keys == [] {
      assert WithKeys(s.tables, []) == s.tables;
    } else {
      var t := Apply(env, s, NewKey(keys[0]));
      assert t == s.(tables := s.tables.(kmsKeys := s.tables.kmsKeys + {keys[0]}));
      KeysAreSteps(env, t, keys[1..]);
      assert KeySteps(keys)[1..] == KeySteps(keys[1..]);
      assert Elements(keys) == {keys[0]} + Elements(keys[1..]);
    }
  }

  lemma {:induction false} LegalSnoc(env: Env, s: Store, steps: seq<Step>, last: Step)
    requires Legal(env, s, steps) && Enabled(env, Final(env, s, steps), last)
    ensures Legal(env, s, steps + [last]) && Final(env, s, steps + [last]) == Apply(env, Final(env, s, steps), last)
    decreases |steps|
  {
    if steps == [] {
      assert steps + [last] == [last] && [last][1..] == [];
    } else {
      assert (steps + [last])[1..] == steps[1..] + [last];
      LegalSnoc(env, Apply(env, s, steps[0]), steps[1..], last);
    }
  }

  /** Everything a stream stored and left behind, as one upload. */
  function UploadOf(before: Store, after: Store): Step {
    Upload(after.blobs - before.blobs.Keys, after.used - before.used)
  }

  lemma UploadIs(env: Env, before: Store, after: Store)
    requires before.blobs.Keys <= before.used && Added(before.blobs, before.used, after.blobs)
    requires before.used + after.blobs.Keys <= after.used && after.tables == before.tables
    ensures Enabled(env, before, UploadOf(before, after)) && Apply(env, before, UploadOf(before, after)) == after
  {
  }

  /** Keys are created and blobs are uploaded. */
  lemma StreamRun(env: Env, s: Store, keys: seq<nat>, after: Store)
    requires s.blobs.Keys <= s.used && Added(s.blobs, s.used, after.blobs) && s.used + after.blobs.Keys <= after.used
    requires after.tables == WithKeys(s.tables, keys)
    ensures var run := KeySteps(keys) + [UploadOf(s, after)]; Legal(env, s, run) && Final(env, s, run) == after
  {
    var mid := s.(tables := WithKeys(s.tables, keys));
    KeysAreSteps(env, s, keys);
    UploadIs(env, mid, after);
    assert UploadOf(s, after) == UploadOf(mid, after);
    LegalSnoc(env, s, KeySteps(keys), UploadOf(s, after));
  }

  /** What a step without a stream makes of the state. */
  lemma AppliesAs(env: Env, s: Store, step: Step, u: Tables, after: Blobs)
    requires Transaction(env, s.tables, step) == Some(u) && BlobsAfter(s, step) == after && !step.Upload?
    ensures Succeeds(env, s, step) && Apply(env, s, step) == Store(u, after, s.used)
  {
  }

  lemma NoKeys(t: Tables)
    ensures WithKeys(t, []) == t
  {
  }

  /** The stream succeeded and the metadata was written. */
  lemma WriteRun(env: Env, s: Store, keys: seq<nat>, mid: Store, last: Step, u: Tables)
    requires var run := KeySteps(keys) + [UploadOf(s, mid)]; Legal(env, s, run) && Final(env, s, run) == mid
    requires (last.Put? || last.UploadPart?) && Streamed(env, mid, last.chunks, last.data)
    requires Transaction(env, mid.tables, last) == Some(u)
    ensures var run := KeySteps(keys) + [UploadOf(s, mid)] + [last];
            Legal(env, s, run) && Final(env, s, run) == mid.(tables := u)
  {
    LegalSnoc(env, s, KeySteps(keys) + [UploadOf(s, mid)], last);
  }

  lemma Wrote(env: Env, s: Store, keys: seq<nat>, mid: Store, last: Step, u: Tables)
    requires var run := KeySteps(keys) + [UploadOf(s, mid)]; Legal(env, s, run) && Final(env, s, run) == mid
    requires (last.Put? || last.UploadPart?) && Streamed(env, mid, last.chunks, last.data)
    requires Transaction(env, mid.tables, last) == Some(u) && Covered(mid.tables, mid.used)
    requires mid.blobs.Keys <= mid.used
    ensures var run := KeySteps(keys) + [UploadOf(s, mid)] + [last];
            Legal(env, s, run) && Final(env, s, run) == mid.(tables := u)
    ensures Covered(u, mid.used)
  {
    WriteRun(env, s, keys, mid, last, u);
    StaysCovered(env, mid.tables, mid.used, last, u, mid.used);
  }

  /** The stream succeeded, and then its object is put or not. */
  lemma PutOutcome(env: Env, s: Store, keys: seq<nat>, mid: Store, put: Step, ids: nat -> nat,
                   encryption: EncryptionType, u: Tables, commits: bool, ok: bool)
    requires put.Put? && Streamed(env, mid, put.chunks, put.data) && Named(put.chunks, ids, encryption, keys)
    requires var run := KeySteps(keys) + [UploadOf(s, mid)]; Legal(env, s, run) && Final(env, s, run) == mid
    requires mid.tables == WithKeys(s.tables, keys) && mid.blobs.Keys <= mid.used && Covered(mid.tables, mid.used)
    requires ok <==> commits && Transaction(env, mid.tables, put).Some?
    requires if ok then Transaction(env, mid.tables, put) == Some(u) else u == mid.tables
    ensures ok <==> commits && NewIds(DeleteChunksOf(s.tables, OfObject(put.k)), ids, |put.chunks|)
    ensures var before := KeySteps(keys) + [UploadOf(s, mid)]; var run := if ok then before + [put] else before;
            Legal(env, s, run) && Final(env, s, run) == mid.(tables := u)
    ensures Covered(u, mid.used)
  {
    var row := ObjectRow(env.digest(put.data), |put.data|, Compression(KIND, put.level));
    PutsIff(mid.tables, s.tables, put.k, row, put.chunks, ids, encryption, keys);
    if ok {
      Wrote(env, s, keys, mid, put, u);
    }
  }

  /** Nothing is left to complete or abort. */
  lemma NoRetry(env: Env, s: Store, id: UploadId)
    requires (exists lists :: Consistent(s.tables, lists)) && Succeeds(env, s, Complete(id))
    ensures var t := Apply(env, s, Complete(id)); !Succeeds(env, t, Complete(id)) && !Succeeds(env, t, Abort(id))
  {
    var lists :| Consistent(s.tables, lists);
    CompletedIsGone(s.tables, lists, env.digest, id);
    GoneFails(env, Apply(env, s, Complete(id)), id);
  }

  lemma GoneFails(env: Env, s: Store, id: UploadId)
    requires id !in s.tables.uploads
    ensures !Succeeds(env, s, Complete(id)) && !Succeeds(env, s, Abort(id))
  {
  }

  lemma KeyCovered(t: Tables, used: set<Address>, key: nat, more: set<Address>)
    requires Covered(t, used) && used <= more
    ensures Covered(t.(kmsKeys := t.kmsKeys + {key}), more)
  {
    var lists :| Consistent(t, lists) && Referenced(lists) <= used;
    KeyConsistent(t, lists, key);
    assert Referenced(lists) <= more;
  }

  lemma MoreCovered(t: Tables, used: set<Address>, more: set<Address>)
    requires Covered(t, used) && used <= more
    ensures Covered(t, more)
  {
    var lists :| Consistent(t, lists) && Referenced(lists) <= used;
    assert Referenced(lists) <= more;
  }

  lemma CompleteApplies(env: Env, s: Store, u: Tables, id: UploadId)
    requires Queryable(s.tables) && CompleteTx(s.tables, env.digest, id) == Some(u)
    ensures Succeeds(env, s, Complete(id)) && Apply(env, s, Complete(id)) == Store(u, s.blobs, s.used)
  {
    CompletionIs(env, s.tables, id);
    AppliesAs(env, s, Complete(id), u, s.blobs);
  }

  lemma CompletionIs(env: Env, t: Tables, id: UploadId)
    requires Queryable(t)
    ensures Transaction(env, t, Complete(id)) == CompleteTx(t, env.digest, id)
  {
    var step: Step := Complete(id);
    assert step.Complete? && step.id == id;
  }

  lemma DeleteApplies(env: Env, s: Store, u: Tables, k: ObjectKey)
    requires DeleteObjectTx(s.tables, k) == Some(u)
    ensures Succeeds(env, s, Delete(k)) && Apply(env, s, Delete(k)) == Store(u, s.blobs - RefsOf(s, k), s.used)
  {
    AppliesAs(env, s, Delete(k), u, s.blobs - RefsOf(s, k));
  }

  /** The call was the delete step, with no blob missing before, or one that gave up. */
  ghost predicate Deleted(env: Env, before: Store, after: Store, k: ObjectKey, ok: bool) {
    if ok then
      && RefsOf(before, k) <= before.blobs.Keys && Enabled(env, before, Delete(k)) && Succeeds(env, before, Delete(k))
      && after == Apply(env, before, Delete(k))
    else
      Enabled(env, before, DeleteFails(k, after.blobs)) && after == Apply(env, before, DeleteFails(k, after.blobs))
  }

  /** What is left after the blobs of the chunks were deleted: all but them, if all of them could be. */
  ghost predicate BlobsDeleted(before: Blobs, after: Blobs, chunks: seq<Chunk>, ok: bool) {
    && OnlyRemoved(before, after, AllRefs(chunks))
    && (ok ==> AllRefs(chunks) <= before.Keys && after == before - AllRefs(chunks))
  }

  lemma DeletedIs(env: Env, before: Store, after: Store, k: ObjectKey, chunks: seq<Chunk>, deleted: bool, ok: bool)
    requires Queryable(before.tables) && k in before.tables.objects && after.used == before.used
    requires chunks == GetChunks(before.tables, OfObject(k)) && BlobsDeleted(before.blobs, after.blobs, chunks, deleted)
    requires if ok then deleted && DeleteObjectTx(before.tables, k) == Some(after.tables)
             else after.tables == before.tables
    ensures Deleted(env, before, after, k, ok)
  {
    assert RefsOf(before, k) == AllRefs(chunks);
    if ok {
      DeleteApplies(env, before, after.tables, k);
    } else {
      GaveUp(env, before, after.blobs, k);
    }
  }

  lemma GaveUp(env: Env, s: Store, after: Blobs, k: ObjectKey)
    requires OnlyRemoved(s.blobs, after, RefsOf(s, k))
    ensures Enabled(env, s, DeleteFails(k, after))
    ensures Apply(env, s, DeleteFails(k, after)) == Store(s.tables, after, s.used)
  {
  }

  /** What a deletion leaves, in terms of the chunks. */
  lemma DeletedRefs(before: Blobs, after: Blobs, refused: set<Address>, chunks: seq<Chunk>, ok: bool, stop: nat)
    requires Outcome(before, after, refused, AllShards(chunks), ok, stop)
    ensures BlobsDeleted(before, after, chunks, ok)
  {
    var all := AllShards(chunks);
    AllShardsRefs(chunks);
    AddressesPrefix(all, stop);
  }

  lemma CreatesIff(t: Tables, id: UploadId, row: UploadRow)
    requires exists lists :: Consistent(t, lists)
    ensures CreateUploadTx(t, id, row).Some? <==> id !in t.uploads
  {
    var lists :| Consistent(t, lists);
    CreateUploadConsistent(t, lists, id, row);
  }

  lemma {:induction false} KeysCovered(t: Tables, used: set<Address>, keys: seq<nat>)
    requires Covered(t, used)
    ensures Covered(WithKeys(t, keys), used)
    decreases |keys|
  {
    if keys == [] {
      NoKeys(t);
    } else {
      var k := |keys| - 1;
      KeysCovered(t, used, keys[..k]);
      KeyCovered(WithKeys(t, keys[..k]), used, keys[k], used);
      WithOneMore(t, keys[..k], keys[k]);
      assert keys == keys[..k] + [keys[k]];
    }
  }

  lemma StreamedNow(env: Env, encryption: EncryptionType, ids: nat -> nat, size: nat, s: Store, t: Store, data: Bytes,
                    run: Attempt)
    requires size > 0 && Streams(env.sys, encryption, ids, size, s, data, run) && run.read == |data|
    requires Covered(s.tables, s.used) && t.tables == WithKeys(s.tables, run.keys) && t.blobs == run.grown
    ensures Streamed(env, t, run.made, data)
  {
    assert data[..|data|] == data;
    ChopJoins(data, size);
    assert HeldAs(env.sys, t.blobs, run.made, Chop(data, size));
    KeysCovered(s.tables, s.used, run.keys);
    CoveredUnlisted(t.tables, s.used, AllRefs(run.made));
  }

  lemma DeletedCovered(env: Env, before: Store, after: Store, k: ObjectKey, ok: bool)
    requires Covered(before.tables, before.used) && Deleted(env, before, after, k, ok)
    ensures Covered(after.tables, after.used)
  {
    if ok {
      StaysCovered(env, before.tables, before.used, Delete(k), after.tables, after.used);
    }
  }

  lemma DeletionIs(env: Env, t: Tables, blobs: Blobs, used: set<Address>, k: ObjectKey, chunks: seq<Chunk>,
                   u: Tables, after: Blobs, deleted: bool, ok: bool)
    requires Covered(t, used) && Queryable(t) && k in t.objects && chunks == GetChunks(t, OfObject(k))
    requires BlobsDeleted(blobs, after, chunks, deleted)
    requires if ok then deleted && DeleteObjectTx(t, k) == Some(u) else u == t
    ensures Deleted(env, Store(t, blobs, used), Store(u, after, used), k, ok) && Covered(u, used)
    ensures chunks == ChunksOf(t, OfObject(k))
  {
    DeletedIs(env, Store(t, blobs, used), Store(u, after, used), k, chunks, deleted, ok);
    DeletedCovered(env, Store(t, blobs, used), Store(u, after, used), k, ok);
  }

  // ---------------------------------------------------------------------
  // The service
  // ---------------------------------------------------------------------

  /** Where a stream started: the store, and the next names of blobs and keys. */
  datatype Origin = Origin(store: Store, name: nat, key: nat)

  class ObjectManager {
    const store: BlobStore
    const db: D.Database
    const sys: System
    const digest: Bytes -> nat
    const comp: Compression
    const encryption: EncryptionType
    const chunkSize: nat

    constructor (store: BlobStore, db: D.Database, sys: System, digest: Bytes -> nat, level: int,
                 encryption: EncryptionType, chunkSize: nat)
      ensures this.store == store && this.db == db && this.sys == sys && this.digest == digest
      ensures comp == Compression(Zstd, level) && this.encryption == encryption && this.chunkSize == chunkSize
    {
      this.store, this.db, this.sys, this.digest := store, db, sys, digest;
      this.comp, this.encryption, this.chunkSize := Compression(KIND, level), encryption, chunkSize;
    }

    ghost predicate Valid()
      reads this, store, db
    {
      && store.Valid() && db.Valid() && Covered(db.tables, store.used)
      && Configured(sys) && comp.kind == KIND && chunkSize > 0
      && forall b :: b in store.limits ==> store.limits[b] > 0
    }

    ghost function Env(): ObjectStore.Env {
      ObjectStore.Env(sys, digest)
    }

    ghost function State(): Store
      reads store, db
    {
      Store(db.tables, store.blobs, store.used)
    }

    /** The call was this run. */
    ghost predicate Ran(before: Store, run: seq<Step>)
      reads this, store, db
    {
      Legal(Env(), before, run) && State() == Final(Env(), before, run)
    }

    /** Something is in the way of a stream. */
    ghost predicate Hindered(data: Bytes, faults: Faults)
      reads this, store, db
      requires chunkSize > 0
    {
      Blocked(sys, store.limits, comp, encryption, chunkSize, data, faults, store.nextName, db.nextKey)
    }

    ghost predicate BlockedNow(piece: Bytes, faults: Faults)
      reads this, store, db
    {
      Blocks(sys, store.limits, comp, encryption, piece, faults, store.nextName, db.nextKey)
    }

    /** The chunk of one piece, with a new key if it is to be encrypted. `id` is its random id. */
    method MakeChunk(piece: Bytes, id: nat, faults: Faults) returns (r: Option<Chunk>, key: Option<nat>)
      requires Valid()
      modifies db, store
      ensures Valid() && Grew(old(store.blobs), old(store.used), store.blobs, store.used)
      ensures store.nextName >= old(store.nextName) && db.nextKey >= old(db.nextKey)
      ensures db.tables == KeyAdded(old(db.tables), key)
      ensures r.Some? ==> Packed(sys, store.blobs, piece, comp, encryption, r.value)
      ensures r.Some? ==> Refs(r.value) <= store.blobs.Keys && Refs(r.value) !! old(store.used)
      ensures r.Some? ==> NamedAs(r.value, id, encryption, OptionalKey(key), 0) && OneEach(r.value.shards)
      ensures key.Some? ==> !encryption.NoEncryption? && key.value !in old(db.tables).kmsKeys
      ensures r.None? ==> old(BlockedNow(piece, faults))
    {
      key := None;
      assert old(store.used) + store.blobs.Keys == store.used;
      if !encryption.NoEncryption? && sys.codec.compress(piece, comp).Some? {
        key := db.CreateKey(db.nextKey !in faults.keys);
        if key.None? {
          return None, None;
        }
      }
      var keyId := if key.Some? then key.value else 0;
      assert AlwaysPackable(sys, store.limits, comp, encryption, piece) ==>
          Packable(sys, store.limits, piece, comp, encryption, keyId);
      r := ProcessChunk(store, sys, piece, encryption, comp, id, keyId, faults.puts);
      if key.Some? {
        KeyCovered(old(db.tables), old(store.used), key.value, store.used);
      } else {
        MoreCovered(db.tables, old(store.used), store.used);
      }
    }

    /** The first slices of the data have become chunks. */
    ghost predicate Makes(before: Store, data: Bytes, ids: nat -> nat, run: Attempt)
      reads this
      requires chunkSize > 0
    {
      Streams(sys, encryption, ids, chunkSize, before, data, run)
    }

    /** A stream that has read n bytes. */
    ghost predicate InProgress(before: Store, data: Bytes, ids: nat -> nat, keys: seq<nat>, chunks: seq<Chunk>, n: nat)
      reads this, store, db
    {
      && Valid() && db.tables == WithKeys(before.tables, keys)
      && Grew(before.blobs, before.used, store.blobs, store.used)
      && Makes(before, data, ids, Attempt(keys, chunks, n, store.blobs))
    }

    ghost function Here(): Origin
      reads store, db
    {
      Origin(State(), store.nextName, db.nextKey)
    }

    /** ... since o, with a key for every chunk. */
    ghost predicate Goes(o: Origin, data: Bytes, ids: nat -> nat, keys: seq<nat>, chunks: seq<Chunk>, n: nat)
      reads this, store, db
    {
      && InProgress(o.store, data, ids, keys, chunks, n) && KeyEach(encryption, keys, chunks)
      && store.nextName >= o.name && db.nextKey >= o.key
    }

    lemma StartsNow(data: Bytes, ids: nat -> nat)
      requires Valid()
      ensures Goes(Here(), data, ids, [], [], 0)
    {
      StartsEmpty(sys, encryption, ids, chunkSize, State(), data);
      NoKeys(db.tables);
    }

    lemma EndsWell(before: Store, data: Bytes, ids: nat -> nat, keys: seq<nat>, chunks: seq<Chunk>)
      requires InProgress(before, data, ids, keys, chunks, |data|)
      ensures var run := Attempt(keys, chunks, |data|, store.blobs); Ended(before, run) && Makes(before, data, ids, run)
    {
    }

    /** One round: the next piece's chunk joins the others. */
    method AddChunk(data: Bytes, ids: nat -> nat, faults: Faults, chunks: seq<Chunk>, n: nat,
                    upTo: nat, ghost before: Store, ghost keys: seq<nat>)
      returns (r: Option<Chunk>, ghost more: seq<nat>)
      requires InProgress(before, data, ids, keys, chunks, n) && KeyEach(encryption, keys, chunks)
      requires n < |data| && upTo == n + Min(chunkSize, |data| - n)
      modifies db, store
      ensures store.nextName >= old(store.nextName) && db.nextKey >= old(db.nextKey)
      ensures if r.Some? then InProgress(before, data, ids, more, chunks + [r.value], upTo)
              else InProgress(before, data, ids, more, chunks, n)
      ensures r.Some? ==> KeyEach(encryption, more, chunks + [r.value])
      ensures r.None? ==> old(BlockedNow(data[n..upTo], faults))
    {
      var piece, key := data[n..upTo], None;
      ghost var run := Attempt(keys, chunks, n, store.blobs);
      r, key := MakeChunk(piece, ids(|chunks|), faults);
      MaybeOneMore(before.tables, keys, key);
      more := keys + OptionalKey(key);
      StreamsNext(sys, encryption, comp, ids, chunkSize, before, data, run, old(store.used), old(db.tables).kmsKeys,
                  store.blobs, store.used, key, upTo, piece, r);
    }

    /** A stream that has ended: keys were created, and blobs added, some of which may be gone again. */
    ghost predicate Ended(before: Store, run: Attempt)
      reads this, store, db
    {
      && Valid() && db.tables == WithKeys(before.tables, run.keys)
      && before.used + store.blobs.Keys <= store.used && Added(before.blobs, before.used, store.blobs)
    }

    /** Cleans up after a failure. */
    method Discard(data: Bytes, ids: nat -> nat, chunks: seq<Chunk>, n: nat, refused: set<Address>, ghost before: Store,
                   ghost keys: seq<nat>)
      returns (ghost run: Attempt)
      requires InProgress(before, data, ids, keys, chunks, n) && before.blobs.Keys <= before.used
      modifies store`blobs
      ensures Ended(before, run) && Makes(before, data, ids, run) && run.keys == keys
      ensures CleanedUp(run, refused, store.blobs)
    {
      run := Attempt(keys, chunks, n, store.blobs);
      forall i | 0 <= i < |chunks|
        ensures Refs(chunks[i]) !! refused <==> Removable(store.blobs, refused, chunks, i)
        ensures AllRefs(chunks) !! refused ==> Refs(chunks[i]) !! refused
      {
        FreshRemovable(store.blobs, refused, chunks, i);
      }
      CleanUp(store, chunks, refused);
      StillAdded(before.blobs, before.used, run.grown, store.used, store.blobs, chunks);
    }

    /** A stream that failed: it is cleaned up after, and something was in its way. */
    ghost predicate FailedSince(o: Origin, data: Bytes, ids: nat -> nat, faults: Faults, run: Attempt)
      reads this, store, db
    {
      && Ended(o.store, run) && Makes(o.store, data, ids, run)
      && CleanedUp(run, faults.deletes, store.blobs)
      && Blocked(sys, store.limits, comp, encryption, chunkSize, data, faults, o.name, o.key)
    }

    /** The next slice of at most `chunkSize` bytes becomes a chunk, or the stream fails. */
    method NextRound(data: Bytes, ids: nat -> nat, faults: Faults, chunks: seq<Chunk>, n: nat, ghost o: Origin,
                     ghost keys: seq<nat>)
      returns (c: Option<Chunk>, upTo: nat, ghost more: seq<nat>, ghost run: Attempt)
      requires Goes(o, data, ids, keys, chunks, n) && n < |data| && o.store.blobs.Keys <= o.store.used
      modifies db, store
      ensures if c.Some? then n < upTo && Goes(o, data, ids, more, chunks + [c.value], upTo)
              else FailedSince(o, data, ids, faults, run)
    {
      upTo := n + Min(chunkSize, |data| - n);
      ghost var name, key := store.nextName, db.nextKey;
      ChopNext(data, chunkSize, n);
      c, more := AddChunk(data, ids, faults, chunks, n, upTo, o.store, keys);
      run := Attempt(more, chunks, n, store.blobs);
      if c.None? {
        BlockedBy(sys, store.limits, comp, encryption, chunkSize, data, faults, o.name, o.key, data[n..upTo], name,
                  key);
        run := Discard(data, ids, chunks, n, faults.deletes, o.store, more);
      }
    }

    /** A stream that made chunks of everything. */
    ghost predicate DoneSince(o: Origin, data: Bytes, ids: nat -> nat, run: Attempt)
      reads this, store, db
    {
      Ended(o.store, run) && Makes(o.store, data, ids, run) && run.read == |data| && store.blobs == run.grown
    }

    /** Round by round, until the end of the data or a failure. */
    method Rounds(data: Bytes, ids: nat -> nat, faults: Faults, ghost o: Origin)
      returns (r: Option<seq<Chunk>>, ghost run: Attempt)
      requires Goes(o, data, ids, [], [], 0) && o.store.blobs.Keys <= o.store.used
      modifies db, store
      ensures if r.Some? then r.value == run.made && DoneSince(o, data, ids, run)
              else FailedSince(o, data, ids, faults, run)
    {
      var chunks: seq<Chunk>, n: nat := [], 0;
      ghost var keys: seq<nat> := [];
      while n < |data|
        invariant Goes(o, data, ids, keys, chunks, n)
      {
        var c: Option<Chunk>;
        c, n, keys, run := NextRound(data, ids, faults, chunks, n, o, keys);
        if c.None? {
          return None, run;
        }
        chunks := chunks + [c.value];
      }
      EndsWell(o.store, data, ids, keys, chunks);
      return Some(chunks), Attempt(keys, chunks, n, store.blobs);
    }

    /** `ChunkStream`, in the schedule that runs one worker at a time. Some keys may have been created. A stream that
        succeeds has made one chunk of each slice. It fails only if something is in its way; then every chunk it has
        completed is deleted as far as the backends accept that, whatever becomes of the others. */
    method ChunkStream(data: Bytes, ids: nat -> nat, faults: Faults)
      returns (r: Option<seq<Chunk>>, ghost run: Attempt)
      requires Valid()
      modifies db, store
      ensures Ended(old(State()), run) && Makes(old(State()), data, ids, run)
      ensures r.Some? ==> r.value == run.made && run.read == |data| && store.blobs == run.grown
      ensures r.None? ==> CleanedUp(run, faults.deletes, store.blobs) && old(Hindered(data, faults))
    {
      ghost var o := Here();
      StartsNow(data, ids);
      r, run := Rounds(data, ids, faults, o);
    }

    /** The stream of a call: keys are created and blobs are uploaded. */
    method Stream(data: Bytes, ids: nat -> nat, faults: Faults) returns (r: Option<seq<Chunk>>, ghost run: Attempt)
      requires Valid()
      modifies db, store
      ensures Valid() && Ran(old(State()), KeySteps(run.keys) + [UploadOf(old(State()), State())])
      ensures Makes(old(State()), data, ids, run)
      ensures r.Some? ==> r.value == run.made && run.read == |data| && Streamed(Env(), State(), run.made, data)
      ensures r.None? ==> CleanedUp(run, faults.deletes, store.blobs) && old(Hindered(data, faults))
      ensures db.tables == WithKeys(old(db.tables), run.keys)
    {
      r, run := ChunkStream(data, ids, faults);
      StreamRun(Env(), old(State()), run.keys, State());
      if r.Some? {
        StreamedNow(Env(), encryption, ids, chunkSize, old(State()), State(), data, run);
      }
    }

    /** `PutObjectStream` and `UpdateObjectStream`: keys are created and blobs are uploaded, then the object is put or
        the call fails. It succeeds exactly if the stream does, the chunks' ids are new, and the commit goes through. */
    method PutObject(k: ObjectKey, data: Bytes, ids: nat -> nat, faults: Faults, commits: bool)
      returns (ok: bool, ghost run: Attempt, ghost mid: Store, ghost streamed: bool)
      requires Valid()
      modifies db, store
      ensures Valid() && Makes(old(State()), data, ids, run)
      ensures var before := KeySteps(run.keys) + [UploadOf(old(State()), mid)];
              Ran(old(State()), if ok then before + [Put(k, data, comp.level, run.made)] else before)
      ensures if streamed then run.read == |data|
              else CleanedUp(run, faults.deletes, store.blobs) && old(Hindered(data, faults))
      ensures ok <==> streamed && commits && NewIds(DeleteChunksOf(old(db.tables), OfObject(k)), ids, |run.made|)
    {
      var r;
      r, run := Stream(data, ids, faults);
      mid, streamed, ok := State(), r.Some?, false;
      if r.Some? {
        ghost var put := Put(k, data, comp.level, run.made);
        assert Streamed(Env(), mid, put.chunks, put.data);
        ok := db.UpsertObject(k, ObjectRow(digest(data), |data|, comp), r.value, commits);
        PutOutcome(Env(), old(State()), run.keys, mid, put, ids, encryption, db.tables, commits, ok);
      }
    }

    /** `UploadPartStream`: no stream is started for an unknown upload. */
    method UploadPart(p: PartKey, data: Bytes, ids: nat -> nat, faults: Faults, commits: bool)
      returns (ok: bool, ghost run: Attempt, ghost mid: Store, ghost streamed: bool)
      requires Valid()
      modifies db, store
      ensures Valid()
      ensures p.upload in old(db.tables).uploads ==>
                var before := KeySteps(run.keys) + [UploadOf(old(State()), mid)];
                && Makes(old(State()), data, ids, run)
                && Ran(old(State()), if ok then before + [ObjectStore.UploadPart(p, data, run.made)] else before)
                && if streamed then run.read == |data|
                   else CleanedUp(run, faults.deletes, store.blobs) && old(Hindered(data, faults))
      ensures p.upload !in old(db.tables).uploads ==> !streamed && State() == old(State())
      ensures ok <==> streamed && commits && NewIds(DeleteChunksOf(old(db.tables), OfPart(p)), ids, |run.made|)
    {
      if p.upload !in db.tables.uploads {
        return false, Attempt([], [], 0, store.blobs), State(), false;
      }
      var r;
      r, run := Stream(data, ids, faults);
      mid, streamed := State(), r.Some?;
      if r.None? {
        return false, run, mid, streamed;
      }
      ok := db.PutPart(p, PartRow(digest(data), |data|), r.value, commits);
      PutsPartIff(mid.tables, old(db.tables), p, PartRow(digest(data), |data|), r.value, ids, encryption, run.keys);
      if ok {
        Wrote(Env(), old(State()), run.keys, mid, ObjectStore.UploadPart(p, data, run.made), db.tables);
      }
    }

    /** The call was this step, or failed and changed nothing. */
    ghost predicate Took(before: Store, step: Step, done: bool)
      reads this, store, db
    {
      if done then
        && Enabled(Env(), before, step) && Succeeds(Env(), before, step)
        && State() == Apply(Env(), before, step)
      else State() == before
    }

    method CreateMultipartUpload(id: UploadId, k: ObjectKey, commits: bool) returns (ok: bool)
      requires Valid()
      modifies db
      ensures Valid() && Took(old(State()), Create(id, k, comp.level), ok)
      ensures ok <==> commits && id !in old(db.tables).uploads
    {
      CreatesIff(db.tables, id, UploadRow(k.bucket, k.key, comp));
      ok := db.CreateMultipartUpload(id, UploadRow(k.bucket, k.key, comp), commits);
      if ok {
        StaysCovered(Env(), old(db.tables), store.used, Create(id, k, comp.level), db.tables, store.used);
      }
    }

    /** The object is read back after the commit: the call is the complete step if it was `done`, and then reports an
        error nevertheless if the object cannot be read. */
    method CompleteMultipartUpload(id: UploadId, commits: bool, readable: bool)
      returns (r: Option<D.Fetched>, ghost done: bool)
      requires Valid()
      modifies db
      ensures Valid() && Took(old(State()), Complete(id), done)
      ensures done <==> commits && Succeeds(Env(), old(State()), Complete(id))
      ensures r.Some? <==> done && readable
    {
      db.ValidIsQueryable();
      if id !in db.tables.uploads {
        return None, false;
      }
      r, done := db.CompleteMultipartUpload(digest, id, commits, readable);
      if done {
        CompleteApplies(Env(), old(State()), db.tables, id);
        StaysCovered(Env(), old(db.tables), store.used, Complete(id), db.tables, store.used);
      }
    }

    method AbortMultipartUpload(id: UploadId, commits: bool) returns (ok: bool)
      requires Valid()
      modifies db
      ensures Valid() && Took(old(State()), Abort(id), ok)
      ensures ok <==> commits && id in old(db.tables).uploads
    {
      ok := db.AbortMultipartUpload(id, commits);
      if ok {
        StaysCovered(Env(), old(db.tables), store.used, Abort(id), db.tables, store.used);
      }
    }

    /** The blobs of the object can be deleted one after the other. */
    ghost predicate BlobsGo(k: ObjectKey, refused: set<Address>)
      reads store, db
    {
      Deletable(store.blobs, refused, AllShards(ChunksOf(db.tables, OfObject(k))))
    }

    /** `DeleteObject`: blobs first, then the row. It is the delete step or one that gave up. It succeeds exactly if the
        object can be read from the database, each of its blobs is there and can be deleted, and the row can. */
    method DeleteObject(k: ObjectKey, readable: bool, refused: set<Address>, commits: bool) returns (ok: bool)
      requires Valid()
      modifies db, store`blobs
      ensures Valid()
      ensures Deleted(Env(), old(State()), State(), k, ok)
      ensures ok <==> readable && k in old(db.tables).objects && old(BlobsGo(k, refused)) && commits
    {
      var found := db.GetObject(k, readable);
      if found.Some? {
        ok := DeleteFound(k, found.value.chunks, refused, commits);
      } else {
        GaveUp(Env(), State(), store.blobs, k);
        ok := false;
      }
    }

    method DeleteFound(k: ObjectKey, chunks: seq<Chunk>, refused: set<Address>, commits: bool) returns (ok: bool)
      requires Valid() && k in db.tables.objects
      requires Queryable(db.tables) && chunks == GetChunks(db.tables, OfObject(k))
      modifies db, store`blobs
      ensures Valid()
      ensures Deleted(Env(), old(State()), State(), k, ok)
      ensures ok <==> old(BlobsGo(k, refused)) && commits
    {
      ghost var deleted;
      ok, deleted := DeleteListed(k, chunks, refused, commits);
      DeletionIs(Env(), old(db.tables), old(store.blobs), store.used, k, chunks, db.tables, store.blobs, deleted, ok);
    }

    /** What deleting the chunks comes to. */
    method DeleteBlobs(chunks: seq<Chunk>, refused: set<Address>) returns (ok: bool)
      requires store.Valid()
      modifies store`blobs
      ensures store.Valid() && BlobsDeleted(old(store.blobs), store.blobs, chunks, ok)
      ensures ok <==> Deletable(old(store.blobs), refused, AllShards(chunks))
    {
      ghost var stop;
      ok, stop := DeleteChunks(store, chunks, refused);
      DeletedRefs(old(store.blobs), store.blobs, refused, chunks, ok, stop);
    }

    /** The blobs of these chunks are deleted, and then the row of the object. */
    method DeleteListed(k: ObjectKey, chunks: seq<Chunk>, refused: set<Address>, commits: bool)
      returns (ok: bool, ghost deleted: bool)
      requires store.Valid() && db.Valid() && k in db.tables.objects
      modifies db, store`blobs
      ensures store.Valid() && db.Valid() && BlobsDeleted(old(store.blobs), store.blobs, chunks, deleted)
      ensures deleted <==> Deletable(old(store.blobs), refused, AllShards(chunks))
      ensures ok <==> deleted && commits
      ensures if ok then DeleteObjectTx(old(db.tables), k) == Some(db.tables) else db.tables == old(db.tables)
    {
      ok := DeleteBlobs(chunks, refused);
      deleted := ok;
      if ok {
        ok := db.DeleteObject(k, commits);
      }
    }
  }

  /** A completion that commits and cannot be read back reports an error although the object is there, and so does
      every attempt to repeat it. */
  method CompleteTwice(manager: ObjectManager, id: UploadId, commits: bool, readable: bool)
    returns (first: Option<D.Fetched>, second: Option<D.Fetched>)
    requires manager.Valid() && Succeeds(manager.Env(), manager.State(), Complete(id))
    modifies manager.db
    ensures first.None? && second.None?
    ensures manager.State() == Apply(manager.Env(), old(manager.State()), Complete(id))
  {
    ghost var done;
    NoRetry(manager.Env(), manager.State(), id);
    first, done := manager.CompleteMultipartUpload(id, true, false);
    second, done := manager.CompleteMultipartUpload(id, commits, readable);
  }
}
