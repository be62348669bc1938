/** The metadata service: transactions that run statement by statement and commit or roll back. */
module Database {
  import opened Base
  import opened Sharding
  import opened Chunks
  import opened Schema
  import opened Representation
  import opened Metadata
  import opened Multipart

  // ---------------------------------------------------------------------
  // Loops inside a transaction, on its working copy of the tables
  // ---------------------------------------------------------------------

  /** `insertShards` */
  method InsertShardRows(before: Tables, id: nat, shards: seq<Shard>) returns (r: Option<Tables>)
    ensures r == InsertShards(before, id, shards)
  {
    var t, i := before, 0;
    while i < |shards|
      invariant 0 <= i <= |shards| && InsertShards(before, id, shards) == InsertShards(t, id, shards[i..])
    {
      assert shards[i..][1..] == shards[i + 1..];
      var u := InsertShardRow(t, KeyOf(id, shards[i]), ShardRow(shards[i].backend, shards[i].location));
      if u.None? {
        return None;
      }
      t, i := u.value, i + 1;
    }
    return Some(t);
  }

  /** `insertChunks` and `insertPartChunks` */
  method InsertChunkRows(before: Tables, o: Owner, bucket: string, chunks: seq<Chunk>) returns (r: Option<Tables>)
    ensures r == InsertChunks(before, o, bucket, 0, chunks)
  {
    var t, i := before, 0;
    while i < |chunks|
      invariant 0 <= i <= |chunks|
      invariant InsertChunks(before, o, bucket, 0, chunks) == InsertChunks(t, o, bucket, i, chunks[i..])
    {
      assert chunks[i..][1..] == chunks[i + 1..];
      var c := chunks[i];
      var u := InsertChunkRow(t, c.id, RowOf(o, bucket, i, c));
      if u.None? {
        return None;
      }
      u := InsertShardRows(u.value, c.id, c.shards);
      if u.None? {
        return None;
      }
      t, i := u.value, i + 1;
    }
    return Some(t);
  }

  /** The nested loop of completion: one running ordinal over all parts' chunks. */
  method ReassignChunks(before: Tables, key: string, parts: seq<seq<nat>>) returns (r: Option<Tables>)
    ensures r == ReassignAll(before, key, 0, Flatten(parts))
  {
    var t, ordinal, i := before, 0, 0;
    ghost var all := ReassignAll(before, key, 0, Flatten(parts));
    while i < |parts|
      invariant 0 <= i <= |parts| && all == ReassignAll(t, key, ordinal, Flatten(parts[i..]))
    {
      var ids, j := parts[i], 0;
      ghost var rest := Flatten(parts[i + 1..]);
      assert parts[i..][1..] == parts[i + 1..];
      while j < |ids|
        invariant 0 <= j <= |ids| && all == ReassignAll(t, key, ordinal, ids[j..] + rest)
      {
        assert (ids[j..] + rest)[1..] == ids[j + 1..] + rest;
        var u := ReassignChunkRow(t, ids[j], key, ordinal);
        if u.None? {
          return None;
        }
        t, ordinal, j := u.value, ordinal + 1, j + 1;
      }
      assert ids[|ids|..] + rest == rest;
      i := i + 1;
    }
    return Some(t);
  }

  predicate Known(t: Tables, parts: seq<PartKey>) {
    forall p :: p in parts ==> p in t.parts
  }

  /** The totals of a suffix of the parts, given what was added up before it. */
  ghost predicate AddsUp(t: Tables, all: seq<PartKey>, rest: seq<PartKey>, size: nat, etags: Bytes) {
    && Known(t, all) && Known(t, rest)
    && TotalSize(PartRows(t, all)) == size + TotalSize(PartRows(t, rest))
    && EtagBytes(PartRows(t, all), 8) == etags + EtagBytes(PartRows(t, rest), 8)
  }

  lemma AddNext(t: Tables, all: seq<PartKey>, rest: seq<PartKey>, size: nat, etags: Bytes)
    requires AddsUp(t, all, rest, size, etags) && rest != []
    ensures rest[0] in t.parts
    ensures AddsUp(t, all, rest[1..], size + t.parts[rest[0]].size, etags + BigEndian(t.parts[rest[0]].etag, 8))
  {
    FirstRow(t, rest);
    AppendAssociates(etags, BigEndian(t.parts[rest[0]].etag, 8), EtagBytes(PartRows(t, rest[1..]), 8));
  }

  lemma FirstRow(t: Tables, parts: seq<PartKey>)
    requires parts != [] && Known(t, parts)
    ensures parts[0] in parts
    ensures TotalSize(PartRows(t, parts)) == t.parts[parts[0]].size + TotalSize(PartRows(t, parts[1..]))
    ensures EtagBytes(PartRows(t, parts), 8)
         == BigEndian(t.parts[parts[0]].etag, 8) + EtagBytes(PartRows(t, parts[1..]), 8)
  {
    assert parts[0] in parts;
    assert PartRows(t, parts) == [t.parts[parts[0]]] + PartRows(t, parts[1..]);
    assert PartRows(t, parts)[1..] == PartRows(t, parts[1..]);
  }

  /** What completion reads before its transaction: the parts' sizes and ETags, added up. */
  method GatherRows(t: Tables, parts: seq<PartKey>) returns (size: nat, etags: Bytes)
    requires Known(t, parts)
    ensures size == TotalSize(PartRows(t, parts)) && etags == EtagBytes(PartRows(t, parts), 8)
  {
    size, etags := 0, [];
    var i := 0;
    assert parts[0..] == parts;
    while i < |parts|
      invariant 0 <= i <= |parts| && AddsUp(t, parts, parts[i..], size, etags)
    {
      AddNext(t, parts, parts[i..], size, etags);
      assert parts[i..][1..] == parts[i + 1..];
      var row := t.parts[parts[i]];
      size, etags := size + row.size, etags + BigEndian(row.etag, 8);
      i := i + 1;
    }
  }

  /** ... and their chunk ids. */
  method GatherChunks(t: Tables, parts: seq<PartKey>) returns (ids: seq<seq<nat>>)
    requires Queryable(t)
    ensures Flatten(ids) == PartIds(t, parts)
  {
    ids := [];
    var i := 0;
    assert parts[0..] == parts;
    while i < |parts|
      invariant 0 <= i <= |parts| && PartIds(t, parts) == Flatten(ids) + PartIds(t, parts[i..])
    {
      var next := Ids(GetChunks(t, OfPart(parts[i])));
      assert parts[i..][1..] == parts[i + 1..];
      FlattenSnoc(ids, next);
      AppendAssociates(Flatten(ids), next, PartIds(t, parts[i + 1..]));
      ids, i := ids + [next], i + 1;
    }
  }

  // ---------------------------------------------------------------------
  // The service
  // ---------------------------------------------------------------------

  /** An object as it is read back. */
  datatype Fetched = Fetched(row: ObjectRow, chunks: seq<Chunk>)

  class Database {
    var tables: Tables
    var nextKey: nat

    /** The tables represent some chunk lists, and key ids count up from 1. */
    ghost predicate Valid()
      reads this
    {
      && (exists lists :: Consistent(tables, lists))
      && nextKey > 0 && forall k :: k in tables.kmsKeys ==> k < nextKey
    }

    lemma ValidIsQueryable()
      requires Valid()
      ensures Queryable(tables)
    {
      var lists :| Consistent(tables, lists);
      RepresentedIsQueryable(tables, lists);
    }

    constructor ()
      ensures Valid() && tables == NO_TABLES
    {
      tables, nextKey := NO_TABLES, 1;
      EmptyIsConsistent();
    }

    /** `CreateKey`: a new row in the key table, under the next id, if the insert goes through. */
    method CreateKey(commits: bool) returns (r: Option<nat>)
      requires Valid()
      modifies this
      ensures Valid() && nextKey >= old(nextKey)
      ensures r.Some? <==> commits
      ensures r.Some? ==> r.value == old(nextKey) < nextKey && r.value > 0 && r.value !in old(tables).kmsKeys
      ensures r.Some? ==> tables == old(tables).(kmsKeys := old(tables).kmsKeys + {r.value})
      ensures r.None? ==> tables == old(tables)
    {
      ghost var lists :| Consistent(tables, lists);
      if !commits {
        return None;
      }
      r := Some(nextKey);
      KeyConsistent(tables, lists, nextKey);
      tables := tables.(kmsKeys := tables.kmsKeys + {nextKey});
      nextKey := nextKey + 1;
    }

    /** `upsertObject`. `commits` says whether the commit goes through; if not, it rolls back, here and below. The
        transaction is committed exactly if no statement violates a constraint and the commit goes through. */
    method UpsertObject(k: ObjectKey, row: ObjectRow, chunks: seq<Chunk>, commits: bool) returns (ok: bool)
      requires Valid() && AllWellFormed(chunks)
      modifies this
      ensures Valid() && nextKey == old(nextKey)
      ensures ok <==> commits && PutObjectTx(old(tables), k, row, chunks).Some?
      ensures if ok then PutObjectTx(old(tables), k, row, chunks) == Some(tables) else tables == old(tables)
    {
      ghost var lists :| Consistent(tables, lists);
      PutObjectConsistent(tables, lists, k, row, chunks);
      var t := EnsureBucket(tables, k.bucket);
      var u := UpsertObjectRow(t, k, row);
      if u.None? {
        return false;
      }
      t := DeleteChunksOf(u.value, OfObject(k));
      u := InsertChunkRows(t, OfObject(k), k.bucket, chunks);
      if u.None? {
        return false;
      }
      if !commits {
        return false;
      }
      tables := u.value;
      return true;
    }

    /** `PutPart` */
    method PutPart(p: PartKey, row: PartRow, chunks: seq<Chunk>, commits: bool) returns (ok: bool)
      requires Valid() && AllWellFormed(chunks)
      modifies this
      ensures Valid() && nextKey == old(nextKey)
      ensures ok <==> commits && PutPartTx(old(tables), p, row, chunks).Some?
      ensures if ok then PutPartTx(old(tables), p, row, chunks) == Some(tables) else tables == old(tables)
    {
      ghost var lists :| Consistent(tables, lists);
      PutPartConsistent(tables, lists, p, row, chunks);
      if p.upload !in tables.uploads {
        return false;
      }
      var t := DeleteChunksOf(tables, OfPart(p));
      var u := UpsertPartRow(t, p, row);
      if u.None? {
        return false;
      }
      u := InsertChunkRows(u.value, OfPart(p), tables.uploads[p.upload].bucket, chunks);
      if u.None? {
        return false;
      }
      if !commits {
        return false;
      }
      tables := u.value;
      return true;
    }

    method CreateMultipartUpload(id: UploadId, row: UploadRow, commits: bool) returns (ok: bool)
      requires Valid()
      modifies this
      ensures Valid() && nextKey == old(nextKey)
      ensures ok <==> commits && CreateUploadTx(old(tables), id, row).Some?
      ensures if ok then CreateUploadTx(old(tables), id, row) == Some(tables) else tables == old(tables)
    {
      ghost var lists :| Consistent(tables, lists);
      CreateUploadConsistent(tables, lists, id, row);
      var u := InsertUploadRow(EnsureBucket(tables, row.bucket), id, row);
      if u.None? {
        return false;
      }
      if !commits {
        return false;
      }
      tables := u.value;
      return true;
    }

    method AbortMultipartUpload(id: UploadId, commits: bool) returns (ok: bool)
      requires Valid()
      modifies this
      ensures Valid() && nextKey == old(nextKey)
      ensures ok <==> commits && AbortTx(old(tables), id).Some?
      ensures if ok then AbortTx(old(tables), id) == Some(tables) else tables == old(tables)
    {
      ghost var lists :| Consistent(tables, lists);
      DeleteUploadsConsistent(tables, lists, {id});
      if !commits {
        return false;
      }
      ok := id in tables.uploads; // rows affected
      if ok {
        tables := DeleteUploadRows(tables, {id});
      }
    }

    /** `GetObject`, if the database can be read. */
    method GetObject(k: ObjectKey, readable: bool) returns (r: Option<Fetched>)
      requires Valid()
      ensures r.Some? <==> readable && k in tables.objects
      ensures r.Some? ==> Queryable(tables) && r.value == Fetched(tables.objects[k], GetChunks(tables, OfObject(k)))
    {
      ValidIsQueryable();
      if !readable || k !in tables.objects {
        return None;
      }
      return Some(Fetched(tables.objects[k], GetChunks(tables, OfObject(k))));
    }

    /** `CompleteMultipartUpload`: `done` says whether the transaction was committed. A valid database never rejects
        it for a constraint. The object is read back after the commit, so an error may be reported for a completion
        that is done. */
    method CompleteMultipartUpload(digest: Bytes -> nat, id: UploadId, commits: bool, readable: bool)
      returns (r: Option<Fetched>, ghost done: bool)
      requires Valid()
      modifies this
      ensures Valid() && Queryable(old(tables))
      ensures done <==> commits && CompleteTx(old(tables), digest, id).Some?
      ensures if done then CompleteTx(old(tables), digest, id) == Some(tables) else tables == old(tables)
      ensures r.Some? <==> done && readable
      ensures r.Some? ==>
                var k := Target(old(tables).uploads[id]);
                && k in tables.objects && Queryable(tables)
                && r.value == Fetched(tables.objects[k], GetChunks(tables, OfObject(k)))
    {
      ghost var lists :| Consistent(tables, lists);
      CompleteConsistent(tables, lists, digest, id);
      r, done := None, false;
      if id !in tables.uploads {
        return;
      }
      var upload := tables.uploads[id];
      var parts := ListParts(tables.parts.Keys, id, MAX_PARTS, 1).0;
      if parts == [] {
        return;
      }
      var size, etags := GatherRows(tables, parts);
      var ids := GatherChunks(tables, parts);
      var k := Target(upload);
      var t := EnsureBucket(tables, k.bucket);
      var u := UpsertObjectRow(t, k, ObjectRow(digest(etags), size, upload.compression));
      if u.None? {
        return;
      }
      t := DeleteChunksOf(u.value, OfObject(k));
      u := ReassignChunks(t, k.key, ids);
      if u.None? {
        return;
      }
      t := DeleteUploadRows(u.value, {id});
      if !commits {
        return;
      }
      tables, done := t, true;
      r := GetObject(k, readable);
    }

    method DeleteObject(k: ObjectKey, commits: bool) returns (ok: bool)
      requires Valid()
      modifies this
      ensures Valid() && nextKey == old(nextKey)
      ensures ok <==> commits && DeleteObjectTx(old(tables), k).Some?
      ensures if ok then DeleteObjectTx(old(tables), k) == Some(tables) else tables == old(tables)
    {
      ghost var lists :| Consistent(tables, lists);
      DeleteObjectConsistent(tables, lists, k);
      if !commits {
        return false;
      }
      ok := k in tables.objects; // rows affected
      if ok {
        tables := DeleteObjectRow(tables, k);
      }
    }

    method CreateBucket(bucket: string, commits: bool) returns (ok: bool)
      requires Valid()
      modifies this
      ensures Valid() && nextKey == old(nextKey)
      ensures ok <==> commits && CreateBucketTx(old(tables), bucket).Some?
      ensures if ok then CreateBucketTx(old(tables), bucket) == Some(tables) else tables == old(tables)
    {
      ghost var lists :| Consistent(tables, lists);
      CreateBucketConsistent(tables, lists, bucket);
      if !commits {
        return false;
      }
      ok := bucket !in tables.buckets; // primary key
      if ok {
        tables := EnsureBucket(tables, bucket);
      }
    }

    method DeleteBucket(bucket: string, commits: bool) returns (ok: bool)
      requires Valid()
      modifies this
      ensures Valid() && nextKey == old(nextKey)
      ensures ok <==> commits && DeleteBucketTx(old(tables), bucket).Some?
      ensures if ok then DeleteBucketTx(old(tables), bucket) == Some(tables) else tables == old(tables)
    {
      ghost var lists :| Consistent(tables, lists);
      DeleteBucketConsistent(tables, lists, bucket);
      if !commits {
        return false;
      }
      ok := bucket in tables.buckets; // rows affected
      if ok {
        tables := DeleteBucketRow(tables, bucket);
      }
    }
  }
}
