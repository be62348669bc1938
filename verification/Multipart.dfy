/** Completing a multipart upload: its parts' chunks are handed over to the object, in part order. */
module Multipart {
  import opened Base
  import opened Chunks
  import opened Ordering
  import opened Paging
  import opened Schema
  import opened Representation
  import opened Metadata

  // ---------------------------------------------------------------------
  // The transaction
  // ---------------------------------------------------------------------

  const MAX_PARTS: nat := 10000

  function PartsOf(parts: set<PartKey>, id: UploadId): set<PartKey> {
    set p | p in parts && p.upload == id
  }

  function ByNumber(parts: set<PartKey>): map<PartKey, int> {
    map p | p in parts :: p.number
  }

  /** An upload's parts are told apart by their numbers. */
  lemma NumbersRank(parts: set<PartKey>, id: UploadId)
    ensures Ranked(PartsOf(parts, id), ByNumber(parts))
  {
  }

  /** SELECT ... FROM multipart_parts WHERE upload_id = ? AND part_number >= ? ORDER BY part_number LIMIT max + 1 */
  function ListParts(parts: set<PartKey>, id: UploadId, max: nat, first: int): (seq<PartKey>, bool) {
    NumbersRank(parts, id);
    NumberPage(PartsOf(parts, id), ByNumber(parts), max, first)
  }

  /** The parts that completion takes. */
  function Taken(parts: set<PartKey>, id: UploadId): seq<PartKey> {
    ListParts(parts, id, MAX_PARTS, 1).0
  }

  function PartRows(t: Tables, parts: seq<PartKey>): seq<PartRow>
    requires forall p :: p in parts ==> p in t.parts
  {
    if parts == [] then [] else assert parts[0] in parts; [t.parts[parts[0]]] + PartRows(t, parts[1..])
  }

  function TotalSize(rows: seq<PartRow>): nat {
    if rows == [] then 0 else rows[0].size + TotalSize(rows[1..])
  }

  /** The byte with this value. */
  function Byte(n: nat): (b: bv8)
    requires n < 256
    ensures b as nat == n
  {
    if n == 0 then 0 else Byte(n - 1) + 1
  }

  /** binary.BigEndian.PutUint64, for any width. */
  function BigEndian(n: nat, width: nat): Bytes
    decreases width
  {
    if width == 0 then [] else BigEndian(n / 256, width - 1) + [Byte(n % 256)]
  }

  /** What the combined digest is fed with. */
  function EtagBytes(rows: seq<PartRow>, width: nat): Bytes {
    if rows == [] then [] else BigEndian(rows[0].etag, width) + EtagBytes(rows[1..], width)
  }

  function CombinedRow(digest: Bytes -> nat, upload: UploadRow, rows: seq<PartRow>): ObjectRow {
    ObjectRow(digest(EtagBytes(rows, 8)), TotalSize(rows), upload.compression)
  }

  /** The chunk ids of the parts, in order. */
  function PartIds(t: Tables, parts: seq<PartKey>): seq<nat>
    requires Queryable(t)
  {
    if parts == [] then [] else Ids(GetChunks(t, OfPart(parts[0]))) + PartIds(t, parts[1..])
  }

  function ReassignAll(t: Tables, key: string, ordinal: nat, ids: seq<nat>): Option<Tables>
    decreases |ids|
  {
    if ids == [] then Some(t)
    else
      var u := ReassignChunkRow(t, ids[0], key, ordinal);
      if u.None? then None else ReassignAll(u.value, key, ordinal + 1, ids[1..])
  }

  function Target(row: UploadRow): ObjectKey {
    ObjectKey(row.bucket, row.key)
  }

  lemma TakenAreParts(parts: set<PartKey>, id: UploadId)
    ensures forall p :: p in Taken(parts, id) ==> p in parts && p.upload == id && p.number >= 1
  {
    NumbersRank(parts, id);
    var q := Listed(PartsOf(parts, id), ByNumber(parts), 1);
    var r := Limited(q, MAX_PARTS).0;
    forall p | p in r
      ensures p in q
    {
    }
  }

  /** `CompleteMultipartUpload`: bucket, object row, old chunks out, part chunks over, upload out. */
  function CompleteTx(t: Tables, digest: Bytes -> nat, id: UploadId): Option<Tables>
    requires Queryable(t)
  {
    var parts := Taken(t.parts.Keys, id);
    if id !in t.uploads || parts == [] then None
    else
      TakenAreParts(t.parts.Keys, id);
      var k := Target(t.uploads[id]);
      var row := CombinedRow(digest, t.uploads[id], PartRows(t, parts));
      var u := UpsertObjectRow(EnsureBucket(t, k.bucket), k, row);
      if u.None? then None
      else
        var w := ReassignAll(DeleteChunksOf(u.value, OfObject(k)), k.key, 0, PartIds(t, parts));
        if w.None? then None else Some(DeleteUploadRows(w.value, {id}))
  }

  // ---------------------------------------------------------------------
  // Moving the chunks
  // ---------------------------------------------------------------------

  lemma {:induction false} ReassignSplits(t: Tables, key: string, ordinal: nat, a: seq<nat>, b: seq<nat>, u: Tables)
    requires ReassignAll(t, key, ordinal, a) == Some(u)
    ensures ReassignAll(t, key, ordinal, a + b) == ReassignAll(u, key, ordinal + |a|, b)
    decreases |a|
  {
    if a == [] {
      assert a + b == b;
    } else {
      assert (a + b)[1..] == a[1..] + b;
      var w := ReassignChunkRow(t, a[0], key, ordinal).value;
      ReassignSplits(w, key, ordinal + 1, a[1..], b, u);
    }
  }

  ghost predicate Movable(t: Tables, lists: Lists, p: Owner, k: ObjectKey) {
    && p.OfPart? && p in lists && lists[p].bucket == k.bucket && k in t.objects
    && OfObject(k) in lists && lists[OfObject(k)].bucket == k.bucket && lists[OfObject(k)].from == 0
  }

  /** All chunks of p are at the end of k. */
  function MovedPart(lists: Lists, p: Owner, k: ObjectKey): Lists
    requires p in lists && OfObject(k) in lists
  {
    var l := lists[p];
    Extended(lists[p := Listing(l.bucket, l.from + |l.chunks|, [])], OfObject(k), l.chunks)
  }

  lemma MovedPartStep(lists: Lists, p: Owner, k: ObjectKey)
    requires p.OfPart? && p in lists && OfObject(k) in lists
    ensures lists[p].chunks == [] ==> MovedPart(lists, p, k) == lists
    ensures lists[p].chunks != [] ==> MovedPart(Moved(lists, p, k), p, k) == MovedPart(lists, p, k)
  {
    var l, m := lists[p], lists[OfObject(k)];
    if l.chunks == [] {
      assert m.chunks + [] == m.chunks;
    } else {
      assert (m.chunks + [l.chunks[0]]) + l.chunks[1..] == m.chunks + l.chunks;
    }
  }

  lemma {:induction false} MovePart(t: Tables, lists: Lists, p: Owner, k: ObjectKey) returns (u: Tables)
    requires Represents(t, lists) && Movable(t, lists, p, k)
    ensures ReassignAll(t, k.key, |lists[OfObject(k)].chunks|, Ids(lists[p].chunks)) == Some(u)
    ensures Represents(u, MovedPart(lists, p, k)) && u == t.(chunks := u.chunks)
    decreases |lists[p].chunks|
  {
    MovedPartStep(lists, p, k);
    if lists[p].chunks == [] {
      u := t;
    } else {
      var w := MoveRepresents(t, lists, p, k);
      var ids := Ids(lists[p].chunks);
      assert ids[1..] == Ids(lists[p].chunks[1..]);
      u := MovePart(w, Moved(lists, p, k), p, k);
    }
  }

  /** The parts' chunk lists, one after the other. */
  function Concat(lists: Lists, parts: seq<PartKey>): seq<Chunk>
    requires forall p :: p in parts ==> OfPart(p) in lists
  {
    if parts == [] then []
    else assert parts[0] in parts; lists[OfPart(parts[0])].chunks + Concat(lists, parts[1..])
  }

  function MovedParts(lists: Lists, parts: seq<PartKey>, k: ObjectKey): Lists
    requires OfObject(k) in lists && forall p :: p in parts ==> OfPart(p) in lists
    decreases |parts|
  {
    if parts == [] then lists
    else assert parts[0] in parts; MovedParts(MovedPart(lists, OfPart(parts[0]), k), parts[1..], k)
  }

  lemma {:induction false} ConcatAgrees(a: Lists, b: Lists, parts: seq<PartKey>)
    requires forall p :: p in parts ==> OfPart(p) in a && OfPart(p) in b && a[OfPart(p)].chunks == b[OfPart(p)].chunks
    ensures Concat(a, parts) == Concat(b, parts)
  {
    if parts != [] {
      assert parts[0] in parts;
      ConcatAgrees(a, b, parts[1..]);
    }
  }

  lemma IdsAppend(a: seq<Chunk>, b: seq<Chunk>)
    ensures Ids(a + b) == Ids(a) + Ids(b)
  {
  }

  ghost predicate AllMovable(t: Tables, lists: Lists, parts: seq<PartKey>, k: ObjectKey) {
    && Distinct(parts) && forall p :: p in parts ==> Movable(t, lists, OfPart(p), k)
  }

  lemma RestMovable(t: Tables, lists: Lists, parts: seq<PartKey>, k: ObjectKey, u: Tables)
    requires AllMovable(t, lists, parts, k) && parts != [] && u == t.(chunks := u.chunks)
    ensures var next := MovedPart(lists, OfPart(parts[0]), k);
            && AllMovable(u, next, parts[1..], k)
            && Concat(next, parts[1..]) == Concat(lists, parts[1..])
  {
    var next := MovedPart(lists, OfPart(parts[0]), k);
    forall p | p in parts[1..]
      ensures Movable(u, next, OfPart(p), k) && next[OfPart(p)].chunks == lists[OfPart(p)].chunks
    {
      assert p in parts && Movable(t, lists, OfPart(p), k);
      assert p != parts[0];
    }
    ConcatAgrees(next, lists, parts[1..]);
  }

  /** The chunks of the first part move to the object; the others stay as they are. */
  lemma MoveFirst(t: Tables, lists: Lists, parts: seq<PartKey>, k: ObjectKey) returns (w: Tables)
    requires Represents(t, lists) && OfObject(k) in lists && AllMovable(t, lists, parts, k) && parts != []
    ensures OfPart(parts[0]) in lists
    ensures var next := MovedPart(lists, OfPart(parts[0]), k);
            && ReassignAll(t, k.key, |lists[OfObject(k)].chunks|, Ids(lists[OfPart(parts[0])].chunks)) == Some(w)
            && Represents(w, next) && w == t.(chunks := w.chunks)
            && AllMovable(w, next, parts[1..], k) && Concat(next, parts[1..]) == Concat(lists, parts[1..])
            && |next[OfObject(k)].chunks| == |lists[OfObject(k)].chunks| + |lists[OfPart(parts[0])].chunks|
  {
    assert parts[0] in parts && Movable(t, lists, OfPart(parts[0]), k);
    w := MovePart(t, lists, OfPart(parts[0]), k);
    RestMovable(t, lists, parts, k, w);
  }

  /** No update of the nested loop violates a constraint. */
  lemma {:induction false} MoveParts(t: Tables, lists: Lists, parts: seq<PartKey>, k: ObjectKey) returns (u: Tables)
    requires Represents(t, lists) && OfObject(k) in lists && AllMovable(t, lists, parts, k)
    ensures ReassignAll(t, k.key, |lists[OfObject(k)].chunks|, Ids(Concat(lists, parts))) == Some(u)
    ensures Represents(u, MovedParts(lists, parts, k)) && u == t.(chunks := u.chunks)
    decreases |parts|
  {
    if parts == [] {
      u := t;
    } else {
      var w := MoveFirst(t, lists, parts, k);
      var p, next := OfPart(parts[0]), MovedPart(lists, OfPart(parts[0]), k);
      u := MoveParts(w, next, parts[1..], k);
      ReassignConcat(t, lists, parts, k, w, u);
    }
  }

  lemma ReassignConcat(t: Tables, lists: Lists, parts: seq<PartKey>, k: ObjectKey, w: Tables, u: Tables)
    requires parts != [] && OfObject(k) in lists && forall p :: p in parts ==> OfPart(p) in lists
    requires parts[0] in parts
    requires var n, first := |lists[OfObject(k)].chunks|, lists[OfPart(parts[0])].chunks;
             && ReassignAll(t, k.key, n, Ids(first)) == Some(w)
             && ReassignAll(w, k.key, n + |first|, Ids(Concat(lists, parts[1..]))) == Some(u)
    ensures ReassignAll(t, k.key, |lists[OfObject(k)].chunks|, Ids(Concat(lists, parts))) == Some(u)
  {
    var first := lists[OfPart(parts[0])].chunks;
    IdsAppend(first, Concat(lists, parts[1..]));
    ReassignSplits(t, k.key, |lists[OfObject(k)].chunks|, Ids(first), Ids(Concat(lists, parts[1..])), w);
  }

  /** Only the parts and the object differ, and the object gained the concatenation. */
  ghost predicate HandedOver(a: Lists, b: Lists, parts: seq<PartKey>, k: ObjectKey)
    requires OfObject(k) in a && forall p :: p in parts ==> OfPart(p) in a
  {
    && b.Keys == a.Keys
    && b[OfObject(k)] == a[OfObject(k)].(chunks := a[OfObject(k)].chunks + Concat(a, parts))
    && forall o :: o in a && o != OfObject(k) && (o.OfPart? ==> o.part !in parts) ==> b[o] == a[o]
  }

  lemma {:induction false} MovedPartsHandOver(t: Tables, lists: Lists, parts: seq<PartKey>, k: ObjectKey)
    requires OfObject(k) in lists && AllMovable(t, lists, parts, k)
    ensures HandedOver(lists, MovedParts(lists, parts, k), parts, k)
    decreases |parts|
  {
    var m := lists[OfObject(k)].chunks;
    if parts == [] {
      assert m + [] == m;
    } else {
      var p := OfPart(parts[0]);
      assert parts[0] in parts && Movable(t, lists, p, k);
      RestMovable(t, lists, parts, k, t);
      var next := MovedPart(lists, p, k);
      MovedPartsHandOver(t, next, parts[1..], k);
      assert (m + lists[p].chunks) + Concat(lists, parts[1..]) == m + Concat(lists, parts);
      assert forall q :: q in parts <==> q == parts[0] || q in parts[1..];
    }
  }

  // ---------------------------------------------------------------------
  // The result
  // ---------------------------------------------------------------------

  lemma {:induction false} PartIdsAreConcat(t: Tables, lists: Lists, parts: seq<PartKey>)
    requires Represents(t, lists) && Queryable(t) && forall p :: p in parts ==> OfPart(p) in lists
    ensures PartIds(t, parts) == Ids(Concat(lists, parts))
    decreases |parts|
  {
    if parts != [] {
      var p := OfPart(parts[0]);
      assert parts[0] in parts;
      ChunksReadBack(t, lists, p);
      PartIdsAreConcat(t, lists, parts[1..]);
      IdsAppend(lists[p].chunks, Concat(lists, parts[1..]));
    }
  }

  lemma TakenIsPrefix(parts: set<PartKey>, id: UploadId) returns (q: seq<PartKey>)
    ensures IsListing(q, PartsOf(parts, id), ByNumber(parts), 1)
    ensures Taken(parts, id) == q[..Min(MAX_PARTS, |q|)]
  {
    NumbersRank(parts, id);
    q := ListingExists(PartsOf(parts, id), ByNumber(parts), 1);
    PageOf(q, PartsOf(parts, id), ByNumber(parts), MAX_PARTS, 1);
  }

  /** What is taken is in ascending order of part number, each number once. */
  lemma TakenAscends(parts: set<PartKey>, id: UploadId)
    ensures Ascending(Taken(parts, id), ByNumber(parts)) && Distinct(Taken(parts, id))
  {
    var q := TakenIsPrefix(parts, id);
    AscendingPrefix(q, ByNumber(parts), Min(MAX_PARTS, |q|));
  }

  lemma AscendingPrefix<K>(q: seq<K>, number: map<K, int>, n: nat)
    requires Ascending(q, number) && n <= |q|
    ensures Ascending(q[..n], number) && Distinct(q[..n])
  {
    forall i, j | 0 <= i < j < n
      ensures q[i] != q[j]
    {
      assert number[q[i]] < number[q[j]];
    }
  }

  /** Before the chunks move: the object row is in place and its old chunks are gone. */
  function Prepared(t: Tables, k: ObjectKey, row: ObjectRow): Tables {
    DeleteChunksOf(t.(buckets := t.buckets + {k.bucket}, objects := t.objects[k := row]), OfObject(k))
  }

  lemma PreparedRepresents(t: Tables, lists: Lists, k: ObjectKey, row: ObjectRow)
    requires Represents(t, lists)
    ensures Represents(Prepared(t, k, row), lists[OfObject(k) := Metadata.Whole(k.bucket, [])])
  {
    var u := t.(buckets := t.buckets + {k.bucket}, objects := t.objects[k := row]);
    RepresentsFrame(t, u, lists);
    ClearRepresents(u, lists, OfObject(k), k.bucket);
  }

  lemma TakenMovable(t: Tables, lists: Lists, id: UploadId, row: ObjectRow)
    requires Consistent(t, lists) && id in t.uploads
    ensures var k := Target(t.uploads[id]);
            var cleared := lists[OfObject(k) := Metadata.Whole(k.bucket, [])];
            && AllMovable(Prepared(t, k, row), cleared, Taken(t.parts.Keys, id), k)
            && (forall p :: p in Taken(t.parts.Keys, id) ==> OfPart(p) in lists)
            && Concat(cleared, Taken(t.parts.Keys, id)) == Concat(lists, Taken(t.parts.Keys, id))
  {
    var k := Target(t.uploads[id]);
    var cleared := lists[OfObject(k) := Metadata.Whole(k.bucket, [])];
    TakenAreParts(t.parts.Keys, id);
    TakenAscends(t.parts.Keys, id);
    forall p | p in Taken(t.parts.Keys, id)
      ensures OfPart(p) in lists && Movable(Prepared(t, k, row), cleared, OfPart(p), k)
    {
      assert Rooted(t, OfPart(p), lists[OfPart(p)]);
    }
    ConcatAgrees(cleared, lists, Taken(t.parts.Keys, id));
  }

  /** The lists after completion: the object has the concatenation, the upload's parts are gone. */
  ghost function CompletedLists(t: Tables, lists: Lists, id: UploadId): Lists
    requires id in t.uploads && forall p :: p in Taken(t.parts.Keys, id) ==> OfPart(p) in lists
  {
    var k := Target(t.uploads[id]);
    lists[OfObject(k) := Metadata.Whole(k.bucket, Concat(lists, Taken(t.parts.Keys, id)))] - PartOwners(t, {id})
  }

  /** The other tables after completion. */
  ghost function CompletedTables(t: Tables, id: UploadId, row: ObjectRow): Tables
    requires id in t.uploads
  {
    var k := Target(t.uploads[id]);
    t.(buckets := t.buckets + {k.bucket}, objects := t.objects[k := row],
       uploads := t.uploads - {id}, parts := t.parts - PartsOf(t.parts.Keys, id))
  }

  lemma AfterHandOver(lists: Lists, moved: Lists, parts: seq<PartKey>, k: ObjectKey, gone: set<Owner>)
    requires OfObject(k) !in gone && forall p :: p in parts ==> OfPart(p) in lists && OfPart(p) in gone
    requires HandedOver(lists[OfObject(k) := Metadata.Whole(k.bucket, [])], moved, parts, k)
    ensures var all := Concat(lists[OfObject(k) := Metadata.Whole(k.bucket, [])], parts);
            moved - gone == lists[OfObject(k) := Metadata.Whole(k.bucket, all)] - gone
  {
    var cleared := lists[OfObject(k) := Metadata.Whole(k.bucket, [])];
    var all := Concat(cleared, parts);
    assert [] + all == all;
    var a, b := moved - gone, lists[OfObject(k) := Metadata.Whole(k.bucket, all)] - gone;
    assert a.Keys == b.Keys;
    forall o | o in a
      ensures a[o] == b[o]
    {
      assert o != OfObject(k) ==> moved[o] == cleared[o];
    }
  }

  lemma CascadeRepresents(u: Tables, moved: Lists, id: UploadId)
    requires Represents(u, moved)
    ensures Represents(DeleteUploadRows(u, {id}), moved - PartOwners(u, {id}))
  {
    DeleteRepresents(u, moved, PartOwners(u, {id}));
    RepresentsFrame(WithoutOwners(u, PartOwners(u, {id})), DeleteUploadRows(u, {id}), moved - PartOwners(u, {id}));
  }

  /** All updates succeed, and leave the lists handed over. */
  lemma UpdatesSucceed(t: Tables, lists: Lists, id: UploadId, row: ObjectRow) returns (u: Tables, moved: Lists)
    requires Consistent(t, lists) && id in t.uploads && Queryable(t)
    ensures forall p :: p in Taken(t.parts.Keys, id) ==> OfPart(p) in lists
    ensures var k, parts := Target(t.uploads[id]), Taken(t.parts.Keys, id);
            && ReassignAll(Prepared(t, k, row), k.key, 0, PartIds(t, parts)) == Some(u)
            && u == Prepared(t, k, row).(chunks := u.chunks)
            && HandedOver(lists[OfObject(k) := Metadata.Whole(k.bucket, [])], moved, parts, k)
            && Concat(lists[OfObject(k) := Metadata.Whole(k.bucket, [])], parts) == Concat(lists, parts)
    ensures Represents(u, moved)
  {
    var k, parts := Target(t.uploads[id]), Taken(t.parts.Keys, id);
    var cleared := lists[OfObject(k) := Metadata.Whole(k.bucket, [])];
    var prepared := Prepared(t, k, row);
    PreparedRepresents(t, lists, k, row);
    TakenMovable(t, lists, id, row);
    u := MoveParts(prepared, cleared, parts, k);
    PartIdsAreConcat(t, lists, parts);
    MovedPartsHandOver(prepared, cleared, parts, k);
    moved := MovedParts(cleared, parts, k);
  }

  /** The final cascade deletes no chunk that was handed over. */
  lemma CompleteRepresents(t: Tables, lists: Lists, id: UploadId, row: ObjectRow) returns (u: Tables)
    requires Consistent(t, lists) && id in t.uploads && Queryable(t)
    ensures forall p :: p in Taken(t.parts.Keys, id) ==> OfPart(p) in lists
    ensures var k := Target(t.uploads[id]);
            ReassignAll(Prepared(t, k, row), k.key, 0, PartIds(t, Taken(t.parts.Keys, id))) == Some(u)
    ensures Represents(DeleteUploadRows(u, {id}), CompletedLists(t, lists, id))
    ensures OnlyChunksDiffer(CompletedTables(t, id, row), DeleteUploadRows(u, {id}))
  {
    var moved;
    u, moved := UpdatesSucceed(t, lists, id, row);
    CascadeRepresents(u, moved, id);
    SameParts(t, u, id);
    TakenAreParts(t.parts.Keys, id);
    AfterHandOver(lists, moved, Taken(t.parts.Keys, id), Target(t.uploads[id]), PartOwners(t, {id}));
  }

  lemma SameParts(t: Tables, u: Tables, id: UploadId)
    requires u.parts == t.parts
    ensures PartOwners(u, {id}) == PartOwners(t, {id}) && PartsOfUploads(u, {id}) == PartsOf(t.parts.Keys, id)
  {
    assert PartsOfUploads(u, {id}) == PartsOfUploads(t, {id});
  }

  lemma CompletedParents(t: Tables, id: UploadId, row: ObjectRow, u: Tables)
    requires ParentsExist(t) && id in t.uploads && OnlyChunksDiffer(CompletedTables(t, id, row), u)
    ensures ParentsExist(u)
  {
  }

  lemma CompletedOwned(t: Tables, lists: Lists, id: UploadId, row: ObjectRow, u: Tables, all: seq<Chunk>)
    requires Metadata.Owned(t, lists) && id in t.uploads && OnlyChunksDiffer(CompletedTables(t, id, row), u)
    ensures var k := Target(t.uploads[id]);
            Metadata.Owned(u, lists[OfObject(k) := Metadata.Whole(k.bucket, all)] - PartOwners(t, {id}))
  {
    var k := Target(t.uploads[id]);
    var done := lists[OfObject(k) := Metadata.Whole(k.bucket, all)] - PartOwners(t, {id});
    forall o | o in done
      ensures OwnerExists(u, o) && Rooted(u, o, done[o])
    {
      assert o != OfObject(k) ==> OwnerExists(t, o) && Rooted(t, o, lists[o]);
    }
  }

  /** Completion succeeds exactly for an upload with a part to take. The object's chunks are then the parts'
      chunks in ascending part order, its size is the sum of theirs, and nothing else changes. */
  lemma CompleteConsistent(t: Tables, lists: Lists, digest: Bytes -> nat, id: UploadId)
    requires Consistent(t, lists)
    ensures Queryable(t) && forall p :: p in Taken(t.parts.Keys, id) ==> p in t.parts && OfPart(p) in lists
    ensures var r := CompleteTx(t, digest, id);
            && (r.Some? <==> id in t.uploads && Taken(t.parts.Keys, id) != [])
            && (r.Some? ==>
                  && Consistent(r.value, CompletedLists(t, lists, id))
                  && var rows := PartRows(t, Taken(t.parts.Keys, id));
                  OnlyChunksDiffer(CompletedTables(t, id, CombinedRow(digest, t.uploads[id], rows)), r.value))
  {
    RepresentedIsQueryable(t, lists);
    TakenAreParts(t.parts.Keys, id);
    if id in t.uploads && Taken(t.parts.Keys, id) != [] {
      var k := Target(t.uploads[id]);
      var row := CombinedRow(digest, t.uploads[id], PartRows(t, Taken(t.parts.Keys, id)));
      var u := CompleteRepresents(t, lists, id, row);
      CompletedParents(t, id, row, DeleteUploadRows(u, {id}));
      CompletedOwned(t, lists, id, row, DeleteUploadRows(u, {id}), Concat(lists, Taken(t.parts.Keys, id)));
      assert CompleteTx(t, digest, id) == Some(DeleteUploadRows(u, {id}));
    }
  }

  /** A completed upload is gone. */
  lemma CompletedIsGone(t: Tables, lists: Lists, digest: Bytes -> nat, id: UploadId)
    requires Consistent(t, lists)
    ensures Queryable(t)
    ensures CompleteTx(t, digest, id).Some? ==> id !in CompleteTx(t, digest, id).value.uploads
  {
    CompleteConsistent(t, lists, digest, id);
  }

  lemma CompletesWhen(t: Tables, lists: Lists, digest: Bytes -> nat, id: UploadId)
    requires Consistent(t, lists)
    ensures Queryable(t) && (CompleteTx(t, digest, id).Some? <==> id in t.uploads && Taken(t.parts.Keys, id) != [])
  {
    CompleteConsistent(t, lists, digest, id);
  }

  /** Reading the completed object's chunks yields the parts' chunks in ascending part order. */
  lemma CompletedObjectReads(t: Tables, lists: Lists, digest: Bytes -> nat, id: UploadId)
    requires Consistent(t, lists) && Queryable(t) && CompleteTx(t, digest, id).Some?
    ensures var u := CompleteTx(t, digest, id).value;
            && (forall p :: p in Taken(t.parts.Keys, id) ==> OfPart(p) in lists)
            && Queryable(u) && GetChunks(u, OfObject(Target(t.uploads[id]))) == Concat(lists, Taken(t.parts.Keys, id))
  {
    CompleteConsistent(t, lists, digest, id);
    ChunksReadBack(CompleteTx(t, digest, id).value, CompletedLists(t, lists, id), OfObject(Target(t.uploads[id])));
  }

  /** Every other owner's chunks read as before. */
  lemma CompletionLeavesOthers(t: Tables, lists: Lists, digest: Bytes -> nat, id: UploadId, o: Owner)
    requires Consistent(t, lists) && Queryable(t) && CompleteTx(t, digest, id).Some? && o in lists
    requires o != OfObject(Target(t.uploads[id])) && (o.OfPart? ==> o.part.upload != id)
    ensures var u := CompleteTx(t, digest, id).value;
            && OwnerExists(u, o) && Queryable(u) && GetChunks(u, o) == GetChunks(t, o)
  {
    CompleteConsistent(t, lists, digest, id);
    var u := CompleteTx(t, digest, id).value;
    OthersStay(t, lists, id, o);
    ChunksReadBack(u, CompletedLists(t, lists, id), o);
    ChunksReadBack(t, lists, o);
  }

  lemma OthersStay(t: Tables, lists: Lists, id: UploadId, o: Owner)
    requires id in t.uploads && o in lists && forall p :: p in Taken(t.parts.Keys, id) ==> OfPart(p) in lists
    requires o != OfObject(Target(t.uploads[id])) && (o.OfPart? ==> o.part.upload != id)
    ensures o in CompletedLists(t, lists, id) && CompletedLists(t, lists, id)[o] == lists[o]
  {
  }

  // ---------------------------------------------------------------------
  // The limit on parts
  // ---------------------------------------------------------------------

  lemma {:induction false} ElementsCount<K(!new)>(q: seq<K>)
    requires Distinct(q)
    ensures |Elements(q)| == |q|
  {
    if q != [] {
      ElementsCount(q[1..]);
      assert Elements(q) == {q[0]} + Elements(q[1..]);
    }
  }

  ghost predicate NothingDropped(parts: set<PartKey>, id: UploadId) {
    forall p :: p in PartsOf(parts, id) ==> p in Taken(parts, id)
  }

  /** Completion uses every part exactly when all part numbers are positive and there are at most 10000. */
  lemma NothingDroppedIff(parts: set<PartKey>, id: UploadId)
    ensures NothingDropped(parts, id)
       <==> (forall p :: p in PartsOf(parts, id) ==> p.number >= 1) && |PartsOf(parts, id)| <= 10000
  {
    if NothingDropped(parts, id) {
      DroppingNothing(parts, id);
    }
    if (forall p :: p in PartsOf(parts, id) ==> p.number >= 1) && |PartsOf(parts, id)| <= 10000 {
      var q := TakenIsPrefix(parts, id);
      assert Elements(q) == PartsOf(parts, id);
      AscendingPrefix(q, ByNumber(parts), |q|);
      assert q[..|q|] == q;
      ElementsCount(q);
    }
  }

  lemma DroppingNothing(parts: set<PartKey>, id: UploadId)
    requires NothingDropped(parts, id)
    ensures (forall p :: p in PartsOf(parts, id) ==> p.number >= 1) && |PartsOf(parts, id)| <= 10000
  {
    TakenAreParts(parts, id);
    TakenAscends(parts, id);
    assert Elements(Taken(parts, id)) == PartsOf(parts, id);
    ElementsCount(Taken(parts, id));
    var q := TakenIsPrefix(parts, id);
  }

  lemma DistinctNumbersFit(q: seq<int>, n: nat)
    requires Distinct(q) && forall i :: 0 <= i < |q| ==> 1 <= q[i] <= n
    ensures |q| <= n
  {
    ElementsCount(q);
    IntervalSize(1, n + 1);
    SubsetSize(Elements(q), Interval(1, n + 1));
  }

  lemma AscendingPartsFit(q: seq<PartKey>, n: nat)
    requires forall i, j :: 0 <= i < j < |q| ==> q[i].number < q[j].number
    requires forall i :: 0 <= i < |q| ==> 1 <= q[i].number <= n
    ensures |q| <= n
  {
    DistinctNumbersFit(seq(|q|, i requires 0 <= i < |q| => q[i].number), n);
  }

  /** With the part numbers the HTTP layer admits, the limit drops nothing. */
  lemma AdmittedPartsAreAllTaken(parts: set<PartKey>, id: UploadId)
    requires forall p :: p in PartsOf(parts, id) ==> 1 <= p.number <= 10000
    ensures NothingDropped(parts, id)
  {
    var q := TakenIsPrefix(parts, id);
    forall i | 0 <= i < |q|
      ensures q[i] in PartsOf(parts, id)
    {
      assert q[i] in q;
    }
    AscendingPartsFit(q, 10000);
  }

  /** The parts of the upload, in ascending order of number, each once. */
  ghost predicate AllInOrder(q: seq<PartKey>, parts: set<PartKey>, id: UploadId) {
    && (forall p :: p in q <==> p in parts && p.upload == id)
    && forall i, j :: 0 <= i < j < |q| ==> q[i].number < q[j].number
  }

  /** The part numbers that the HTTP layer admits. */
  ghost predicate Admitted(parts: set<PartKey>, id: UploadId) {
    forall p :: p in parts && p.upload == id ==> 1 <= p.number <= 10000
  }

  lemma AllAreTaken(parts: set<PartKey>, id: UploadId, q: seq<PartKey>)
    requires Admitted(parts, id) && AllInOrder(q, parts, id)
    ensures Taken(parts, id) == q
  {
    AdmittedPartsAreAllTaken(parts, id);
    TakenAscends(parts, id);
    TakenAreParts(parts, id);
    assert forall i :: 0 <= i < |q| ==> q[i] in q;
    AscendingIsUnique(Taken(parts, id), q, ByNumber(parts));
  }

  /** An upload with parts, all admitted, completes with every one of them: the object's chunks are the chunks of all
      parts, in ascending order of part number, its size is the sum of all sizes, and its ETag comes from all ETags. */
  lemma AdmittedUploadsCompleteWhole(t: Tables, lists: Lists, digest: Bytes -> nat, id: UploadId, q: seq<PartKey>)
    requires Consistent(t, lists) && id in t.uploads
    requires Admitted(t.parts.Keys, id) && AllInOrder(q, t.parts.Keys, id) && q != []
    ensures Queryable(t) && CompleteTx(t, digest, id).Some?
    ensures forall p :: p in q ==> p in t.parts && OfPart(p) in lists
    ensures var u, k, rows := CompleteTx(t, digest, id).value, Target(t.uploads[id]), PartRows(t, q);
            && k in u.objects && Queryable(u) && GetChunks(u, OfObject(k)) == Concat(lists, q)
            && u.objects[k].size == TotalSize(rows) && u.objects[k].etag == digest(EtagBytes(rows, 8))
  {
    AllAreTaken(t.parts.Keys, id, q);
    CompleteConsistent(t, lists, digest, id);
    CompletedObjectReads(t, lists, digest, id);
  }

  // ---------------------------------------------------------------------
  // The digest's input
  // ---------------------------------------------------------------------

  function Decoded(b: Bytes): nat {
    if b == [] then 0 else 256 * Decoded(b[..|b| - 1]) + b[|b| - 1] as nat
  }

  function Pow256(n: nat): (r: nat)
    ensures r > 0
  {
    if n == 0 then 1 else 256 * Pow256(n - 1)
  }

  lemma DecodedSnoc(b: Bytes, x: bv8)
    ensures Decoded(b + [x]) == 256 * Decoded(b) + x as nat
  {
    assert (b + [x])[..|b|] == b;
  }

  lemma {:induction false} BigEndianDecodes(n: nat, width: nat)
    requires n < Pow256(width)
    ensures |BigEndian(n, width)| == width && Decoded(BigEndian(n, width)) == n
    decreases width
  {
    if width > 0 {
      BigEndianDecodes(n / 256, width - 1);
      DecodedSnoc(BigEndian(n / 256, width - 1), Byte(n % 256));
    }
  }

  lemma FirstEtag(rows: seq<PartRow>, width: nat)
    requires rows != [] && rows[0].etag < Pow256(width)
    ensures |EtagBytes(rows, width)| >= width && Decoded(EtagBytes(rows, width)[..width]) == rows[0].etag
    ensures EtagBytes(rows, width)[width..] == EtagBytes(rows[1..], width)
  {
    BigEndianDecodes(rows[0].etag, width);
    var first := BigEndian(rows[0].etag, width);
    assert (first + EtagBytes(rows[1..], width))[..|first|] == first;
  }

  /** With eight bytes each, the digest's input tells any two lists of 64-bit part ETags apart. */
  lemma {:induction false} EtagBytesInjective(a: seq<PartRow>, b: seq<PartRow>, width: nat)
    requires width > 0
    requires forall i :: 0 <= i < |a| ==> a[i].etag < Pow256(width)
    requires forall i :: 0 <= i < |b| ==> b[i].etag < Pow256(width)
    requires EtagBytes(a, width) == EtagBytes(b, width)
    ensures |a| == |b| && forall i :: 0 <= i < |a| ==> a[i].etag == b[i].etag
  {
    if a != [] {
      FirstEtag(a, width);
    }
    if b != [] {
      FirstEtag(b, width);
    }
    if a != [] && b != [] {
      EtagBytesInjective(a[1..], b[1..], width);
    }
  }
}
