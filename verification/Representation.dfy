/** What the chunk and shard tables represent: for every owner, an ordered list of chunks. */
module Representation {
  import opened Base
  import opened Sharding
  import opened Chunks
  import opened Ordering
  import opened Schema

  /** The chunks of one owner. Ordinals count up from `from`; outside a transaction that is 0. */
  datatype Listing = Listing(bucket: string, from: nat, chunks: seq<Chunk>)

  type Lists = map<Owner, Listing>

  function KeyOf(id: nat, s: Shard): ShardKey {
    ShardKey(id, s.first, s.last)
  }

  /** The position the row points at is inside its owner's list. */
  ghost predicate Points(row: ChunkRow, lists: Lists) {
    && OwnerOf(row).Some? && OwnerOf(row).value in lists
    && var l := lists[OwnerOf(row).value];
    l.from <= row.ordinal < l.from + |l.chunks|
  }

  ghost function ChunkOf(row: ChunkRow, lists: Lists): Chunk
    requires Points(row, lists)
  {
    var l := lists[OwnerOf(row).value];
    l.chunks[row.ordinal - l.from]
  }

  /** The row is that of the chunk its owner and ordinal point at. */
  ghost predicate RowOk(t: Tables, lists: Lists, id: nat)
    requires id in t.chunks
  {
    var row := t.chunks[id];
    && Points(row, lists)
    && var c := ChunkOf(row, lists);
    && c.id == id
    && row == RowOf(OwnerOf(row).value, lists[OwnerOf(row).value].bucket, row.ordinal, c)
  }

  /** The j-th chunk of an owner has a row, at the right place. */
  ghost predicate HasRow(t: Tables, o: Owner, l: Listing, j: nat)
    requires j < |l.chunks|
  {
    var id := l.chunks[j].id;
    id in t.chunks && OwnerOf(t.chunks[id]) == Some(o) && t.chunks[id].ordinal == l.from + j
  }

  ghost predicate ListOk(t: Tables, lists: Lists, o: Owner)
    requires o in lists
  {
    && (forall j: nat {:trigger HasRow(t, o, lists[o], j)} :: j < |lists[o].chunks| ==> HasRow(t, o, lists[o], j))
    && (forall j: nat {:trigger WellFormed(lists[o].chunks[j])} :: j < |lists[o].chunks| ==>
          WellFormed(lists[o].chunks[j]))
  }

  /** The shard rows of one chunk are exactly its shards. */
  ghost predicate ShardsMatch(t: Tables, id: nat, shards: seq<Shard>) {
    && (forall k :: k in t.shards && k.chunk == id ==> ShardAt(t, k) in shards)
    && (forall s :: s in shards ==> KeyOf(id, s) in t.shards && ShardAt(t, KeyOf(id, s)) == s)
  }

  ghost predicate ShardsOk(t: Tables, lists: Lists, id: nat)
    requires id in t.chunks && Points(t.chunks[id], lists)
  {
    ShardsMatch(t, id, ChunkOf(t.chunks[id], lists).shards)
  }

  ghost predicate Represents(t: Tables, lists: Lists) {
    && (forall id {:trigger RowOk(t, lists, id)} :: id in t.chunks ==> RowOk(t, lists, id))
    && (forall o {:trigger ListOk(t, lists, o)} :: o in lists ==> ListOk(t, lists, o))
    && (forall k :: k in t.shards ==> k.chunk in t.chunks)
    && (forall id {:trigger ShardsOk(t, lists, id)} :: id in t.chunks && RowOk(t, lists, id) ==> ShardsOk(t, lists, id))
  }

  // ---------------------------------------------------------------------
  // Reading back
  // ---------------------------------------------------------------------

  lemma {:induction false} CoversAscends(shards: seq<Shard>, lo: nat, hi: nat, i: nat, j: nat)
    requires Covers(shards, lo, hi) && i < j < |shards|
    ensures shards[i].last < shards[j].first
  {
    var k := |shards| - 1;
    if j < k {
      CoversAscends(shards[..k], lo, shards[k].first, i, j);
    } else {
      CoversBounds(shards[..k], lo, shards[k].first, shards[..k][i]);
      assert shards[..k][i] == shards[i];
    }
  }

  /** The shards of a chunk have strictly ascending first indices. */
  lemma FirstsAscend(c: Chunk, i: nat, j: nat)
    requires WellFormed(c) && i < j < |c.shards|
    ensures c.shards[i].first < c.shards[j].first
  {
    CoversAscends(c.shards, 0, c.dataCount + c.parityCount, i, j);
    CoversBounds(c.shards, 0, c.dataCount + c.parityCount, c.shards[i]);
  }

  lemma SameFirstSameShard(c: Chunk, a: Shard, b: Shard)
    requires WellFormed(c) && a in c.shards && b in c.shards && a.first == b.first
    ensures a == b
  {
    var i :| 0 <= i < |c.shards| && c.shards[i] == a;
    var j :| 0 <= j < |c.shards| && c.shards[j] == b;
    if i < j {
      FirstsAscend(c, i, j);
    } else if j < i {
      FirstsAscend(c, j, i);
    }
  }

  lemma RowChunk(t: Tables, lists: Lists, id: nat)
    requires Represents(t, lists) && id in t.chunks
    ensures RowOk(t, lists, id) && ShardsOk(t, lists, id) && WellFormed(ChunkOf(t.chunks[id], lists))
  {
    var row := t.chunks[id];
    assert RowOk(t, lists, id);
    assert ShardsOk(t, lists, id);
    var o := OwnerOf(row).value;
    assert ListOk(t, lists, o);
    assert WellFormed(lists[o].chunks[row.ordinal - lists[o].from]);
  }

  lemma OrdinalsRank(t: Tables, lists: Lists, o: Owner)
    requires Represents(t, lists)
    ensures Ranked(ChunkIdsOf(t, o), ByOrdinal(t))
  {
    forall a, b | a in ChunkIdsOf(t, o) && b in ChunkIdsOf(t, o) && ByOrdinal(t)[a] == ByOrdinal(t)[b]
      ensures a == b
    {
      assert RowOk(t, lists, a) && RowOk(t, lists, b);
    }
  }

  lemma FirstsRank(t: Tables, lists: Lists, id: nat)
    requires Represents(t, lists)
    ensures Ranked(ShardKeysOf(t, id), ByFirst(t))
  {
    forall a, b | a in ShardKeysOf(t, id) && b in ShardKeysOf(t, id) && ByFirst(t)[a] == ByFirst(t)[b]
      ensures a == b
    {
      RowChunk(t, lists, id);
      SameFirstSameShard(ChunkOf(t.chunks[id], lists), ShardAt(t, a), ShardAt(t, b));
    }
  }

  lemma RepresentedIsQueryable(t: Tables, lists: Lists)
    requires Represents(t, lists)
    ensures Queryable(t)
  {
    forall o
      ensures OrdersChunks(t, o)
    {
      OrdinalsRank(t, lists, o);
    }
    forall id
      ensures OrdersShards(t, id)
    {
      FirstsRank(t, lists, id);
    }
  }

  function Keys(id: nat, shards: seq<Shard>): seq<ShardKey> {
    seq(|shards|, i requires 0 <= i < |shards| => KeyOf(id, shards[i]))
  }

  lemma KeysListed(t: Tables, id: nat, c: Chunk)
    requires ShardsMatch(t, id, c.shards)
    ensures forall k :: k in Keys(id, c.shards) <==> k in ShardKeysOf(t, id)
    ensures forall i :: 0 <= i < |c.shards| ==> ShardAt(t, Keys(id, c.shards)[i]) == c.shards[i]
  {
    var keys := Keys(id, c.shards);
    forall i | 0 <= i < |keys|
      ensures keys[i] in t.shards && ShardAt(t, keys[i]) == c.shards[i]
    {
      assert c.shards[i] in c.shards;
    }
    forall k | k in ShardKeysOf(t, id)
      ensures k in keys
    {
      assert ShardAt(t, k) in c.shards;
      var i :| 0 <= i < |c.shards| && c.shards[i] == ShardAt(t, k);
      assert keys[i] == k;
    }
  }

  lemma KeysAscend(t: Tables, id: nat, c: Chunk)
    requires WellFormed(c) && forall k :: k in Keys(id, c.shards) ==> k in t.shards
    ensures Ascending(Keys(id, c.shards), ByFirst(t))
  {
    var keys := Keys(id, c.shards);
    forall i, j | 0 <= i < j < |keys|
      ensures keys[i].first < keys[j].first
    {
      FirstsAscend(c, i, j);
    }
    assert forall i :: 0 <= i < |keys| ==> keys[i] in keys;
  }

  lemma ShardsReadBack(t: Tables, id: nat, c: Chunk)
    requires ShardsMatch(t, id, c.shards) && WellFormed(c) && OrdersShards(t, id)
    ensures GetShards(t, id) == c.shards
  {
    KeysListed(t, id, c);
    KeysAscend(t, id, c);
    SortIsUnique(Keys(id, c.shards), ShardKeysOf(t, id), ByFirst(t));
  }

  function Ids(chunks: seq<Chunk>): seq<nat> {
    seq(|chunks|, i requires 0 <= i < |chunks| => chunks[i].id)
  }

  lemma IdsReadBack(t: Tables, lists: Lists, o: Owner)
    requires Represents(t, lists) && o in lists && OrdersChunks(t, o)
    ensures Sort(ChunkIdsOf(t, o), ByOrdinal(t)) == Ids(lists[o].chunks)
  {
    var l := lists[o];
    var ids := Ids(l.chunks);
    assert ListOk(t, lists, o);
    forall i | 0 <= i < |ids|
      ensures ids[i] in ChunkIdsOf(t, o) && ByOrdinal(t)[ids[i]] == l.from + i
    {
      assert HasRow(t, o, l, i);
    }
    forall id | id in ChunkIdsOf(t, o)
      ensures id in ids
    {
      assert RowOk(t, lists, id);
      assert ids[t.chunks[id].ordinal - l.from] == id;
    }
    SortIsUnique(ids, ChunkIdsOf(t, o), ByOrdinal(t));
  }

  /** The chunk that reading the row and its shards yields. */
  function Restored(t: Tables, id: nat): Chunk
    requires Queryable(t) && id in t.chunks
  {
    assert OrdersShards(t, id);
    Restore(id, t.chunks[id].body, GetShards(t, id))
  }

  lemma ChunkReadsBack(t: Tables, lists: Lists, o: Owner, i: nat)
    requires Represents(t, lists) && Queryable(t) && o in lists && i < |lists[o].chunks|
    ensures var c := lists[o].chunks[i];
            c.id in t.chunks && Restored(t, c.id) == c
  {
    var l, c := lists[o], lists[o].chunks[i];
    assert ListOk(t, lists, o);
    assert HasRow(t, o, l, i);
    RowChunk(t, lists, c.id);
    assert ChunkOf(t.chunks[c.id], lists) == c;
    assert OrdersShards(t, c.id);
    ShardsReadBack(t, c.id, c);
    RowRoundTripIff(c);
  }

  lemma {:induction false} RestoresAll(t: Tables, chunks: seq<Chunk>)
    requires Queryable(t)
    requires forall i :: 0 <= i < |chunks| ==> chunks[i].id in t.chunks && Restored(t, chunks[i].id) == chunks[i]
    ensures (forall id :: id in Ids(chunks) ==> id in t.chunks) && RestoreAll(t, Ids(chunks)) == chunks
  {
    if chunks != [] {
      var c, rest := chunks[0], chunks[1..];
      RestoresAll(t, rest);
      assert Ids(chunks) == [c.id] + Ids(rest);
      assert Restored(t, c.id) == c;
      assert RestoreAll(t, [c.id] + Ids(rest)) == [Restored(t, c.id)] + RestoreAll(t, Ids(rest)) by {
        assert ([c.id] + Ids(rest))[1..] == Ids(rest);
      }
    }
  }

  /** Reading an owner's chunks returns the list that was stored: order, ranges, cipher, key and counts. */
  lemma ChunksReadBack(t: Tables, lists: Lists, o: Owner)
    requires Represents(t, lists) && o in lists
    ensures Queryable(t) && GetChunks(t, o) == lists[o].chunks
  {
    RepresentedIsQueryable(t, lists);
    assert OrdersChunks(t, o);
    IdsReadBack(t, lists, o);
    forall i | 0 <= i < |lists[o].chunks|
      ensures lists[o].chunks[i].id in t.chunks && Restored(t, lists[o].chunks[i].id) == lists[o].chunks[i]
    {
      ChunkReadsBack(t, lists, o, i);
    }
    RestoresAll(t, lists[o].chunks);
  }

  // ---------------------------------------------------------------------
  // Statements on the represented lists
  // ---------------------------------------------------------------------

  /** Deleting the chunks of some owners removes their lists and nothing else. */
  lemma DeleteRepresents(t: Tables, lists: Lists, gone: set<Owner>)
    requires Represents(t, lists)
    ensures Represents(WithoutOwners(t, gone), lists - gone)
  {
    var u, left := WithoutOwners(t, gone), lists - gone;
    forall id | id in u.chunks
      ensures RowOk(u, left, id) && ShardsOk(u, left, id)
    {
      assert RowOk(t, lists, id) && ShardsOk(t, lists, id);
    }
    forall o | o in left
      ensures ListOk(u, left, o)
    {
      assert ListOk(t, lists, o);
      forall j: nat | j < |left[o].chunks|
        ensures HasRow(u, o, left[o], j) && WellFormed(left[o].chunks[j])
      {
        assert HasRow(t, o, lists[o], j) && WellFormed(lists[o].chunks[j]);
      }
    }
  }

  /** An owner without chunks may be listed as empty. */
  lemma EmptyRepresents(t: Tables, lists: Lists, o: Owner, bucket: string)
    requires Represents(t, lists) && (o in lists ==> lists[o].chunks == [])
    ensures Represents(t, lists[o := Listing(bucket, 0, [])])
  {
    var more := lists[o := Listing(bucket, 0, [])];
    forall id | id in t.chunks
      ensures RowOk(t, more, id) && ShardsOk(t, more, id)
    {
      assert RowOk(t, lists, id) && ShardsOk(t, lists, id);
    }
    forall x | x in more
      ensures ListOk(t, more, x)
    {
      if x != o {
        assert ListOk(t, lists, x);
        forall j: nat | j < |more[x].chunks|
          ensures HasRow(t, x, more[x], j) && WellFormed(more[x].chunks[j])
        {
          assert HasRow(t, x, lists[x], j) && WellFormed(lists[x].chunks[j]);
        }
      }
    }
  }

  function InsertShards(t: Tables, id: nat, shards: seq<Shard>): Option<Tables>
    decreases |shards|
  {
    if shards == [] then Some(t)
    else
      var u := InsertShardRow(t, KeyOf(id, shards[0]), ShardRow(shards[0].backend, shards[0].location));
      if u.None? then None else InsertShards(u.value, id, shards[1..])
  }

  /** insertChunk: the row, then its shards. */
  function InsertChunk(t: Tables, o: Owner, bucket: string, ordinal: nat, c: Chunk): Option<Tables> {
    var u := InsertChunkRow(t, c.id, RowOf(o, bucket, ordinal, c));
    if u.None? then None else InsertShards(u.value, c.id, c.shards)
  }

  /** What inserting shard rows adds. */
  ghost predicate ShardsAdded(t: Tables, u: Tables, id: nat, shards: seq<Shard>) {
    && u == t.(shards := u.shards)
    && (forall k :: k in t.shards ==> k in u.shards && u.shards[k] == t.shards[k])
    && (forall s :: s in shards ==> KeyOf(id, s) in u.shards && ShardAt(u, KeyOf(id, s)) == s)
    && (forall k :: k in u.shards ==> k in t.shards || (k.chunk == id && ShardAt(u, k) in shards))
  }

  /** None of the keys is taken, and no two of them clash. */
  ghost predicate NewKeys(t: Tables, id: nat, shards: seq<Shard>) {
    && (forall i :: 0 <= i < |shards| ==> KeyOf(id, shards[i]) !in t.shards)
    && (forall i, j :: 0 <= i < j < |shards| ==> KeyOf(id, shards[i]) != KeyOf(id, shards[j]))
  }

  lemma NewKeysTail(t: Tables, u: Tables, id: nat, shards: seq<Shard>)
    requires NewKeys(t, id, shards) && shards != []
    requires u.shards.Keys == t.shards.Keys + {KeyOf(id, shards[0])}
    ensures NewKeys(u, id, shards[1..])
  {
  }

  lemma FirstAdded(t: Tables, id: nat, shards: seq<Shard>) returns (u: Tables)
    requires id in t.chunks && NewKeys(t, id, shards) && shards != []
    ensures InsertShardRow(t, KeyOf(id, shards[0]), ShardRow(shards[0].backend, shards[0].location)) == Some(u)
    ensures u == t.(shards := u.shards) && NewKeys(u, id, shards[1..]) && ShardsAdded(t, u, id, [shards[0]])
  {
    var s := shards[0];
    u := InsertShardRow(t, KeyOf(id, s), ShardRow(s.backend, s.location)).value;
    NewKeysTail(t, u, id, shards);
    assert ShardAt(u, KeyOf(id, s)) == s;
  }

  lemma AddedThen(t: Tables, u: Tables, v: Tables, id: nat, shards: seq<Shard>)
    requires shards != [] && ShardsAdded(t, u, id, [shards[0]]) && ShardsAdded(u, v, id, shards[1..])
    ensures ShardsAdded(t, v, id, shards)
  {
    assert forall x :: x in shards <==> x == shards[0] || x in shards[1..];
    assert shards[0] in [shards[0]];
  }

  lemma {:induction false} InsertShardsSucceeds(t: Tables, id: nat, shards: seq<Shard>)
    requires id in t.chunks && NewKeys(t, id, shards)
    ensures InsertShards(t, id, shards).Some? && ShardsAdded(t, InsertShards(t, id, shards).value, id, shards)
    decreases |shards|
  {
    if shards != [] {
      var u := FirstAdded(t, id, shards);
      InsertShardsSucceeds(u, id, shards[1..]);
      AddedThen(t, u, InsertShards(u, id, shards[1..]).value, id, shards);
    }
  }

  lemma NewSlotIsFree(t: Tables, lists: Lists, o: Owner, id: nat, row: ChunkRow)
    requires Represents(t, lists) && o in lists && OwnerOf(row) == Some(o)
    requires row.ordinal == lists[o].from + |lists[o].chunks|
    ensures forall x :: x in t.chunks && x != id ==> !SameSlot(t.chunks[x], row)
  {
    forall x | x in t.chunks && x != id
      ensures !SameSlot(t.chunks[x], row)
    {
      assert RowOk(t, lists, x);
    }
  }

  function Appended(l: Listing, c: Chunk): Listing {
    l.(chunks := l.chunks + [c])
  }

  /** The row a chunk gets at the end of its owner's list. */
  function NextRow(lists: Lists, o: Owner, c: Chunk): ChunkRow
    requires o in lists
  {
    RowOf(o, lists[o].bucket, lists[o].from + |lists[o].chunks|, c)
  }

  ghost predicate CanAppend(t: Tables, lists: Lists, o: Owner, c: Chunk) {
    && o in lists && (o.OfObject? ==> lists[o].bucket == o.name.bucket)
    && WellFormed(c) && c.id !in t.chunks
  }

  lemma RowInserted(t: Tables, lists: Lists, o: Owner, c: Chunk) returns (u: Tables)
    requires Represents(t, lists) && CanAppend(t, lists, o, c) && OwnerExists(t, o) && KeyAllowed(t, BodyOf(c))
    ensures u == t.(chunks := t.chunks[c.id := NextRow(lists, o, c)])
    ensures InsertChunkRow(t, c.id, NextRow(lists, o, c)) == Some(u)
    ensures NewKeys(u, c.id, c.shards)
  {
    var row := NextRow(lists, o, c);
    NewSlotIsFree(t, lists, o, c.id, row);
    u := t.(chunks := t.chunks[c.id := row]);
    forall i, j | 0 <= i < j < |c.shards|
      ensures KeyOf(c.id, c.shards[i]) != KeyOf(c.id, c.shards[j])
    {
      FirstsAscend(c, i, j);
    }
  }

  /** Inserting a new chunk at the end of its owner's list violates no constraint and appends it. */
  lemma InsertRepresents(t: Tables, lists: Lists, o: Owner, c: Chunk) returns (v: Tables)
    requires Represents(t, lists) && CanAppend(t, lists, o, c) && OwnerExists(t, o) && KeyAllowed(t, BodyOf(c))
    ensures InsertChunk(t, o, lists[o].bucket, lists[o].from + |lists[o].chunks|, c) == Some(v)
    ensures Represents(v, lists[o := Appended(lists[o], c)])
    ensures v == t.(chunks := v.chunks, shards := v.shards) && v.chunks.Keys == t.chunks.Keys + {c.id}
  {
    var u := RowInserted(t, lists, o, c);
    InsertShardsSucceeds(u, c.id, c.shards);
    v := InsertShards(u, c.id, c.shards).value;
    InsertedRows(t, lists, o, c, v);
    InsertedLists(t, lists, o, c, v);
  }

  ghost predicate Inserted(t: Tables, lists: Lists, o: Owner, c: Chunk, v: Tables) {
    && CanAppend(t, lists, o, c)
    && ShardsAdded(t.(chunks := t.chunks[c.id := NextRow(lists, o, c)]), v, c.id, c.shards)
  }

  lemma InsertedRows(t: Tables, lists: Lists, o: Owner, c: Chunk, v: Tables)
    requires Represents(t, lists) && Inserted(t, lists, o, c, v)
    ensures var more := lists[o := Appended(lists[o], c)];
            forall id :: id in v.chunks ==> RowOk(v, more, id) && ShardsOk(v, more, id)
  {
    var more := lists[o := Appended(lists[o], c)];
    forall id | id in v.chunks
      ensures RowOk(v, more, id) && ShardsOk(v, more, id)
    {
      if id == c.id {
        assert ChunkOf(v.chunks[id], more) == c;
        assert forall k :: k in t.shards ==> k.chunk != id;
      } else {
        assert RowOk(t, lists, id) && ShardsOk(t, lists, id);
        assert ChunkOf(v.chunks[id], more) == ChunkOf(t.chunks[id], lists);
      }
    }
  }

  lemma InsertedLists(t: Tables, lists: Lists, o: Owner, c: Chunk, v: Tables)
    requires Represents(t, lists) && Inserted(t, lists, o, c, v)
    ensures var more := lists[o := Appended(lists[o], c)];
            forall x :: x in more ==> ListOk(v, more, x)
  {
    var more := lists[o := Appended(lists[o], c)];
    forall x | x in more
      ensures ListOk(v, more, x)
    {
      assert ListOk(t, lists, x);
      forall j: nat | j < |more[x].chunks|
        ensures HasRow(v, x, more[x], j) && WellFormed(more[x].chunks[j])
      {
        if j < |lists[x].chunks| {
          assert HasRow(t, x, lists[x], j) && WellFormed(lists[x].chunks[j]);
        } else {
          assert x == o && more[x].chunks[j] == c;
        }
      }
    }
  }

  // ---------------------------------------------------------------------
  // Re-parenting
  // ---------------------------------------------------------------------

  ghost predicate CanMove(t: Tables, lists: Lists, p: Owner, k: ObjectKey) {
    && p.OfPart? && p in lists && lists[p].chunks != [] && lists[p].bucket == k.bucket
    && OfObject(k) in lists && lists[OfObject(k)].bucket == k.bucket && lists[OfObject(k)].from == 0
  }

  /** The first chunk of p goes to the end of k. */
  function Moved(lists: Lists, p: Owner, k: ObjectKey): Lists
    requires p in lists && lists[p].chunks != [] && OfObject(k) in lists
  {
    var l := lists[p];
    lists[p := Listing(l.bucket, l.from + 1, l.chunks[1..])][OfObject(k) := Appended(lists[OfObject(k)], l.chunks[0])]
  }

  /** Re-parenting the first chunk of a part to the end of an object violates no constraint and moves it. */
  lemma MoveRepresents(t: Tables, lists: Lists, p: Owner, k: ObjectKey) returns (u: Tables)
    requires Represents(t, lists) && CanMove(t, lists, p, k) && k in t.objects
    ensures ReassignChunkRow(t, lists[p].chunks[0].id, k.key, |lists[OfObject(k)].chunks|) == Some(u)
    ensures Represents(u, Moved(lists, p, k))
    ensures u == t.(chunks := u.chunks) && u.chunks.Keys == t.chunks.Keys
  {
    var l, ok := lists[p], OfObject(k);
    var c := l.chunks[0];
    assert ListOk(t, lists, p);
    assert HasRow(t, p, l, 0);
    assert RowOk(t, lists, c.id);
    var row := t.chunks[c.id].(objectKey := Some(k.key), uploadId := None, partNumber := None,
                               ordinal := |lists[ok].chunks|);
    assert row == NextRow(lists, ok, c);
    NewSlotIsFree(t, lists, ok, c.id, row);
    u := t.(chunks := t.chunks[c.id := row]);
    MovedRows(t, lists, p, k, u);
    MovedLists(t, lists, p, k, u);
  }

  lemma MovedRows(t: Tables, lists: Lists, p: Owner, k: ObjectKey, u: Tables)
    requires Represents(t, lists) && CanMove(t, lists, p, k)
    requires var c := lists[p].chunks[0]; u == t.(chunks := t.chunks[c.id := NextRow(lists, OfObject(k), c)])
    ensures var more := Moved(lists, p, k);
            forall id :: id in u.chunks ==> RowOk(u, more, id) && ShardsOk(u, more, id)
  {
    var more, c := Moved(lists, p, k), lists[p].chunks[0];
    assert ListOk(t, lists, p);
    assert HasRow(t, p, lists[p], 0);
    assert RowOk(t, lists, c.id);
    forall id | id in u.chunks
      ensures RowOk(u, more, id) && ShardsOk(u, more, id)
    {
      assert RowOk(t, lists, id) && ShardsOk(t, lists, id);
      assert Points(u.chunks[id], more) && ChunkOf(u.chunks[id], more) == ChunkOf(t.chunks[id], lists);
    }
  }

  lemma MovedLists(t: Tables, lists: Lists, p: Owner, k: ObjectKey, u: Tables)
    requires Represents(t, lists) && CanMove(t, lists, p, k)
    requires var c := lists[p].chunks[0]; u == t.(chunks := t.chunks[c.id := NextRow(lists, OfObject(k), c)])
    ensures var more := Moved(lists, p, k);
            forall x :: x in more ==> ListOk(u, more, x)
  {
    var more, c := Moved(lists, p, k), lists[p].chunks[0];
    assert ListOk(t, lists, p);
    assert HasRow(t, p, lists[p], 0) && WellFormed(lists[p].chunks[0]);
    forall x | x in more
      ensures ListOk(u, more, x)
    {
      assert ListOk(t, lists, x);
      forall j: nat | j < |more[x].chunks|
        ensures HasRow(u, x, more[x], j) && WellFormed(more[x].chunks[j])
      {
        if x == p {
          assert HasRow(t, p, lists[p], j + 1) && WellFormed(lists[p].chunks[j + 1]);
        } else if j < |lists[x].chunks| {
          assert HasRow(t, x, lists[x], j) && WellFormed(lists[x].chunks[j]);
        }
      }
    }
  }
}
