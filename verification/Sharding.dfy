/** `ShardData`: encode one chunk and spread it over the backends. */
module Sharding {
  import opened Base
  import opened Parity
  import opened SegmentSize
  import opened ErasureCode
  import opened Layout
  import opened Backends

  datatype Shard = Shard(first: nat, last: nat, backend: BackendId, location: nat)

  datatype Sharded = Sharded(shards: seq<Shard>, dataCount: nat, size: nat)

  datatype ShardError = NoBackends | EmptyData | UnknownBackend | EncodingFailed | UploadFailed

  function AddressOf(s: Shard): Address {
    Address(s.backend, s.location)
  }

  /** The ranges of `shards` cut lo, ..., hi-1 into consecutive non-empty runs, in ascending order. */
  ghost predicate Covers(shards: seq<Shard>, lo: nat, hi: nat) {
    && lo <= hi
    && if shards == [] then lo == hi
       else
         var s := shards[|shards| - 1];
         lo <= s.first <= s.last == hi - 1 && Covers(shards[..|shards| - 1], lo, s.first)
  }

  /** Each shard's blob holds exactly the segments of its range. */
  ghost predicate Stored(blobs: Blobs, shards: seq<Shard>, rows: seq<Bytes>) {
    forall s :: s in shards ==> HoldsRange(blobs, s, rows)
  }

  ghost predicate HoldsRange(blobs: Blobs, s: Shard, rows: seq<Bytes>) {
    && s.first <= s.last < |rows|
    && AddressOf(s) in blobs
    && blobs[AddressOf(s)] == Flatten(rows[s.first..s.last + 1])
  }

  /** The shard lies on one of the backends, inside that backend's block of the even split. */
  ghost predicate Placed(s: Shard, backends: seq<BackendId>, total: nat) {
    exists i: nat :: i < |backends| && PlacedAt(s, backends, total, i)
  }

  ghost predicate PlacedAt(s: Shard, backends: seq<BackendId>, total: nat, i: nat)
    requires i < |backends|
  {
    && s.backend == backends[i]
    && BlockStart(total, |backends|, i) <= s.first && s.last < BlockStart(total, |backends|, i + 1)
  }

  /** The encoded segments of `data` for a layout over n backends. */
  function Rows(code: Code, f: int, n: nat, data: Bytes, size: nat): seq<Bytes>
    requires f < n && size > 0
  {
    var segments := Segments(data, size);
    Codeword(code, segments, NeededParity(n, |segments|, f))
  }

  /** What a successful `ShardData` leaves behind. */
  ghost predicate Encodes(code: Code, f: int, backends: seq<BackendId>, data: Bytes, blobs: Blobs, out: Sharded) {
    && backends != [] && f < |backends| && out.size > 0 && data != []
    && out.dataCount == |Segments(data, out.size)|
    && code.supports(out.dataCount, NeededParity(|backends|, out.dataCount, f), out.size)
    && var rows := Rows(code, f, |backends|, data, out.size);
    && Covers(out.shards, 0, |rows|)
    && Stored(blobs, out.shards, rows)
    && forall s :: s in out.shards ==> Placed(s, backends, |rows|)
  }

  // ---------------------------------------------------------------------
  // The addresses of shards
  // ---------------------------------------------------------------------

  function Addresses(shards: seq<Shard>): set<Address> {
    set s | s in shards :: AddressOf(s)
  }

  lemma AddressesTake(shards: seq<Shard>, i: nat)
    requires i < |shards|
    ensures Addresses(shards[..i + 1]) == Addresses(shards[..i]) + {AddressOf(shards[i])}
    ensures Addresses(shards[..i]) <= Addresses(shards)
  {
    assert shards[..i + 1] == shards[..i] + [shards[i]];
  }

  /** Different shards have different addresses. */
  predicate OneEach(shards: seq<Shard>) {
    |Addresses(shards)| == |shards|
  }

  lemma OneEachSnoc(shards: seq<Shard>, x: Shard)
    ensures Addresses(shards + [x]) == Addresses(shards) + {AddressOf(x)}
    ensures OneEach(shards + [x]) <==> OneEach(shards) && AddressOf(x) !in Addresses(shards)
  {
    assert Addresses(shards + [x]) == Addresses(shards) + {AddressOf(x)};
    AddressesFew(shards);
    if AddressOf(x) in Addresses(shards) {
      assert Addresses(shards + [x]) == Addresses(shards);
    }
  }

  /** One more upload of backend i. */
  function Extend(done: seq<seq<Shard>>, i: nat, x: Shard): seq<seq<Shard>>
    requires i < |done|
  {
    done[i := done[i] + [x]]
  }

  lemma {:induction false} FlattenHas(done: seq<seq<Shard>>, x: Shard)
    ensures x in Flatten(done) <==> exists i :: 0 <= i < |done| && x in done[i]
  {
    if done != [] {
      FlattenHas(done[1..], x);
      if exists i :: 0 <= i < |done| && x in done[i] {
        var i :| 0 <= i < |done| && x in done[i];
        if i > 0 {
          assert x in done[1..][i - 1];
        }
      }
      if x in Flatten(done[1..]) {
        var i :| 0 <= i < |done| - 1 && x in done[1..][i];
        assert x in done[i + 1];
      }
    }
  }

  lemma ExtendHas(done: seq<seq<Shard>>, i: nat, x: Shard, y: Shard)
    requires i < |done|
    ensures y in Flatten(Extend(done, i, x)) <==> y in Flatten(done) || y == x
  {
    var next := Extend(done, i, x);
    FlattenHas(done, y);
    FlattenHas(next, y);
    if y in Flatten(done) {
      var j :| 0 <= j < |done| && y in done[j];
      assert y in next[j];
    }
    if y == x {
      assert y in next[i];
    }
  }

  /** The addresses used so far, after one more upload. */
  lemma ExtendAddresses(done: seq<seq<Shard>>, i: nat, x: Shard)
    requires i < |done|
    ensures Addresses(Flatten(Extend(done, i, x))) == Addresses(Flatten(done)) + {AddressOf(x)}
  {
    forall y
      ensures y in Flatten(Extend(done, i, x)) <==> y in Flatten(done) || y == x
    {
      ExtendHas(done, i, x, y);
    }
  }

  lemma {:induction false} ExtendLength(done: seq<seq<Shard>>, i: nat, x: Shard)
    requires i < |done|
    ensures |Flatten(Extend(done, i, x))| == |Flatten(done)| + 1
  {
    var next := Extend(done, i, x);
    if i == 0 {
      assert next[1..] == done[1..];
    } else {
      ExtendLength(done[1..], i - 1, x);
      assert next[1..] == Extend(done[1..], i - 1, x);
    }
  }

  /** Different shards have different addresses, and so have those after the first. */
  lemma AddressesTail(shards: seq<Shard>)
    requires shards != [] && |Addresses(shards)| == |shards|
    ensures Addresses(shards[1..]) == Addresses(shards) - {AddressOf(shards[0])}
    ensures |Addresses(shards[1..])| == |shards| - 1
  {
    AddressesFew(shards[1..]);
    assert shards == [shards[0]] + shards[1..];
    assert Addresses(shards) == Addresses(shards[1..]) + {AddressOf(shards[0])};
  }

  lemma {:induction false} AddressesFew(shards: seq<Shard>)
    ensures |Addresses(shards)| <= |shards|
  {
    if shards != [] {
      AddressesFew(shards[1..]);
      assert shards == [shards[0]] + shards[1..];
      assert Addresses(shards) == Addresses(shards[1..]) + {AddressOf(shards[0])};
    }
  }

  // ---------------------------------------------------------------------
  // Parallel upload
  // ---------------------------------------------------------------------

  /** The shards recorded for the raw shards of one backend. Names are at least `name`. */
  ghost predicate Uploaded(shards: seq<Shard>, raws: seq<RawShard>, b: BackendId, blobs: Blobs, name: nat) {
    && |shards| == |raws|
    && forall k :: 0 <= k < |raws| ==>
         && shards[k].first == raws[k].first && shards[k].last == raws[k].last
         && shards[k].backend == b && shards[k].location >= name
         && AddressOf(shards[k]) in blobs && blobs[AddressOf(shards[k])] == raws[k].data
  }

  /** How many uploads the first n backends still owe. */
  ghost function Owed(plan: seq<seq<RawShard>>, done: seq<seq<Shard>>, n: nat): nat
    requires n <= |plan| == |done|
    requires forall i :: 0 <= i < |plan| ==> |done[i]| <= |plan[i]|
  {
    if n == 0 then 0 else Owed(plan, done, n - 1) + |plan[n - 1]| - |done[n - 1]|
  }

  lemma {:induction false} OwedDrops(plan: seq<seq<RawShard>>, done: seq<seq<Shard>>, n: nat, i: nat, x: Shard)
    requires n <= |plan| == |done| && i < |plan|
    requires forall i :: 0 <= i < |plan| ==> |done[i]| <= |plan[i]|
    requires |done[i]| < |plan[i]|
    ensures var next := Extend(done, i, x);
            Owed(plan, next, n) == Owed(plan, done, n) - (if i < n then 1 else 0)
  {
    if n > 0 {
      OwedDrops(plan, done, n - 1, i, x);
    }
  }

  /** Each backend has uploaded a prefix of its plan. */
  ghost predicate Progress(plan: seq<seq<RawShard>>, backends: seq<BackendId>, done: seq<seq<Shard>>, blobs: Blobs,
                           name: nat) {
    && |plan| == |backends| == |done|
    && forall i :: 0 <= i < |plan| ==>
         && |done[i]| <= |plan[i]|
         && Uploaded(done[i], plan[i][..|done[i]|], backends[i], blobs, name)
  }

  lemma ProgressKept(plan: seq<seq<RawShard>>, backends: seq<BackendId>, done: seq<seq<Shard>>, blobs: Blobs,
                     more: Blobs, name: nat)
    requires Progress(plan, backends, done, blobs, name) && Keeps(blobs, more)
    ensures Progress(plan, backends, done, more, name)
  {
  }

  /** Some put that these backends are asked for from this name on is refused. */
  ghost predicate Refuses(refused: set<Address>, backends: seq<BackendId>, name: nat) {
    exists a :: a in refused && a.backend in backends && a.location >= name
  }

  /** Every planned blob is within its backend's limit. */
  ghost predicate AllFit(limits: map<BackendId, nat>, plan: seq<seq<RawShard>>, backends: seq<BackendId>)
    requires |plan| == |backends|
  {
    forall i :: 0 <= i < |plan| ==> backends[i] in limits && WithinLimit(plan[i], limits[backends[i]])
  }

  /** The shards uploaded so far have blobs of their own, at none of these addresses. */
  ghost predicate OwnBlobs(done: seq<seq<Shard>>, blobs: Blobs, others: set<Address>) {
    OneEach(Flatten(done)) && Addresses(Flatten(done)) <= blobs.Keys && Addresses(Flatten(done)) !! others
  }

  lemma OwnBlobsMore(done: seq<seq<Shard>>, i: nat, x: Shard, blobs: Blobs, more: Blobs, others: set<Address>)
    requires i < |done| && OwnBlobs(done, blobs, others) && Keeps(blobs, more)
    requires AddressOf(x) in more && AddressOf(x) !in blobs.Keys + others
    ensures OwnBlobs(Extend(done, i, x), more, others)
  {
    ExtendAddresses(done, i, x);
    ExtendLength(done, i, x);
  }

  lemma NoBlobs(done: seq<seq<Shard>>, blobs: Blobs, others: set<Address>)
    requires forall i :: 0 <= i < |done| ==> done[i] == []
    ensures OwnBlobs(done, blobs, others)
  {
    NothingUploaded(done);
    assert Addresses([]) == {};
  }

  /** The next upload of backend i. */
  method UploadNext(store: BlobStore, plan: seq<seq<RawShard>>, backends: seq<BackendId>, done: seq<seq<Shard>>,
                    i: nat, refused: set<Address>, ghost name: nat, ghost others: set<Address>)
    returns (ok: bool, next: seq<seq<Shard>>)
    requires store.Valid() && store.nextName >= name
    requires Progress(plan, backends, done, store.blobs, name)
    requires i < |plan| && |done[i]| < |plan[i]|
    requires OwnBlobs(done, store.blobs, others) && refused <= others <= store.used + refused
    modifies store
    ensures store.Valid() && store.nextName >= name && Grew(old(store.blobs), old(store.used), store.blobs, store.used)
    ensures Progress(plan, backends, next, store.blobs, name)
    ensures !ok ==> next == done && (Refuses(refused, backends, name) || !AllFit(store.limits, plan, backends))
    ensures OwnBlobs(next, store.blobs, others)
    ensures ok ==> exists x :: next == Extend(done, i, x)
  {
    var raw := plan[i][|done[i]|];
    var location := store.PutShard(backends[i], raw.data, refused);
    ProgressKept(plan, backends, done, old(store.blobs), store.blobs, name);
    if location.None? {
      return false, done;
    }
    var x := Shard(raw.first, raw.last, backends[i], location.value);
    OwnBlobsMore(done, i, x, old(store.blobs), store.blobs, others);
    next := Extend(done, i, x);
    return true, next;
  }

  function Positions(n: nat): (s: set<nat>)
    ensures forall i: nat :: i in s <==> i < n
  {
    if n == 0 then {} else Positions(n - 1) + {n - 1}
  }

  lemma {:induction false} NothingUploaded(done: seq<seq<Shard>>)
    requires forall i :: 0 <= i < |done| ==> done[i] == []
    ensures Flatten(done) == []
  {
    if done != [] {
      NothingUploaded(done[1..]);
    }
  }

  /** One goroutine per backend; the scheduler may interleave their uploads in any order, and a
      backend that fails stops while the others run to their end. It fails only if some put is refused. */
  method UploadAll(store: BlobStore, plan: seq<seq<RawShard>>, backends: seq<BackendId>, refused: set<Address>)
    returns (r: Option<seq<seq<Shard>>>)
    requires store.Valid() && |plan| == |backends|
    modifies store
    ensures store.Valid() && store.nextName >= old(store.nextName)
    ensures Grew(old(store.blobs), old(store.used), store.blobs, store.used)
    ensures r.Some? ==> |r.value| == |plan| && forall i :: 0 <= i < |plan| ==>
              Uploaded(r.value[i], plan[i], backends[i], store.blobs, old(store.nextName))
    ensures r.Some? ==> OneEach(Flatten(r.value)) && Addresses(Flatten(r.value)) !! old(store.used) + refused
    ensures r.None? ==> Refuses(refused, backends, old(store.nextName)) || !AllFit(store.limits, plan, backends)
  {
    var n := |backends|;
    var done: seq<seq<Shard>> := seq(n, _ => []);
    var live := Positions(n);
    var failed := false;
    ghost var others := store.used + refused;
    NoBlobs(done, store.blobs, others);
    while exists i :: i in live && |done[i]| < |plan[i]|
      invariant store.Valid() && store.nextName >= old(store.nextName)
      invariant Grew(old(store.blobs), old(store.used), store.blobs, store.used)
      invariant Progress(plan, backends, done, store.blobs, old(store.nextName))
      invariant forall i :: i in live ==> i < n
      invariant !failed ==> live == Positions(n)
      invariant OwnBlobs(done, store.blobs, others)
      invariant failed ==> Refuses(refused, backends, old(store.nextName)) || !AllFit(store.limits, plan, backends)
      decreases live, Owed(plan, done, n)
    {
      var i :| i in live && |done[i]| < |plan[i]|;
      ghost var was, blobs, used := done, store.blobs, store.used;
      var ok;
      ok, done := UploadNext(store, plan, backends, done, i, refused, old(store.nextName), others);
      GrewTwice(old(store.blobs), old(store.used), blobs, used, store.blobs, store.used);
      if ok {
        ghost var x :| done == Extend(was, i, x);
        OwedDrops(plan, was, n, i, x);
      } else {
        failed := true;
        live := live - {i};
      }
    }
    if failed {
      return None;
    }
    forall i | 0 <= i < n
      ensures Uploaded(done[i], plan[i], backends[i], store.blobs, old(store.nextName))
    {
      assert i in live;
      assert plan[i][..|done[i]|] == plan[i];
    }
    return Some(done);
  }

  // ---------------------------------------------------------------------
  // From the per-backend uploads to one ascending list
  // ---------------------------------------------------------------------

  lemma {:induction false} CoversAppend(a: seq<Shard>, b: seq<Shard>, lo: nat, mid: nat, hi: nat)
    requires Covers(a, lo, mid) && Covers(b, mid, hi)
    ensures Covers(a + b, lo, hi)
  {
    if b == [] {
      assert a + b == a;
    } else {
      var k := |b| - 1;
      CoversAppend(a, b[..k], lo, mid, b[k].first);
      assert (a + b)[..|a + b| - 1] == a + b[..k];
    }
  }

  lemma {:induction false} CoversBounds(shards: seq<Shard>, lo: nat, hi: nat, s: Shard)
    requires Covers(shards, lo, hi) && s in shards
    ensures lo <= s.first <= s.last < hi
  {
    var k := |shards| - 1;
    if s != shards[k] {
      CoversBounds(shards[..k], lo, shards[k].first, s);
    }
  }

  /** Every index is in the range of some shard. */
  lemma {:induction false} CoversFinds(shards: seq<Shard>, lo: nat, hi: nat, k: nat) returns (s: Shard)
    requires Covers(shards, lo, hi) && lo <= k < hi
    ensures s in shards && s.first <= k <= s.last
  {
    var last := shards[|shards| - 1];
    if last.first <= k {
      s := last;
    } else {
      s := CoversFinds(shards[..|shards| - 1], lo, last.first, k);
    }
  }

  lemma {:induction false} UploadedBlock(shards: seq<Shard>, raws: seq<RawShard>, b: BackendId, blobs: Blobs, name: nat,
                                         rows: seq<Bytes>, lo: nat, hi: nat)
    requires Uploaded(shards, raws, b, blobs, name) && Grouped(raws, rows, lo, hi)
    ensures Covers(shards, lo, hi) && Stored(blobs, shards, rows)
  {
    if raws != [] {
      var k := |raws| - 1;
      UploadedBlock(shards[..k], raws[..k], b, blobs, name, rows, lo, raws[k].first);
      assert shards == shards[..k] + [shards[k]];
    }
  }

  /** What a list of shards for the first blocks promises. */
  ghost predicate Spread(shards: seq<Shard>, backends: seq<BackendId>, blobs: Blobs, name: nat, rows: seq<Bytes>,
                         i: nat)
    requires i <= |backends| && backends != []
  {
    && Covers(shards, 0, BlockStart(|rows|, |backends|, i))
    && Stored(blobs, shards, rows)
    && forall s :: s in shards ==> Placed(s, backends, |rows|) && s.location >= name
  }

  lemma SpreadStep(shards: seq<Shard>, block: seq<Shard>, raws: seq<RawShard>, backends: seq<BackendId>, blobs: Blobs,
                   name: nat, rows: seq<Bytes>, i: nat)
    requires i < |backends| && Spread(shards, backends, blobs, name, rows, i)
    requires Uploaded(block, raws, backends[i], blobs, name)
    requires Grouped(raws, rows, BlockStart(|rows|, |backends|, i), BlockStart(|rows|, |backends|, i + 1))
    ensures Spread(shards + block, backends, blobs, name, rows, i + 1)
  {
    var lo, hi := BlockStart(|rows|, |backends|, i), BlockStart(|rows|, |backends|, i + 1);
    UploadedBlock(block, raws, backends[i], blobs, name, rows, lo, hi);
    CoversAppend(shards, block, 0, lo, hi);
    forall s | s in block
      ensures Placed(s, backends, |rows|)
    {
      CoversBounds(block, lo, hi, s);
      assert PlacedAt(s, backends, |rows|, i);
    }
  }

  /** Concatenates the per-backend results in backend order. */
  method Gathered(done: seq<seq<Shard>>, backends: seq<BackendId>, ghost plan: seq<seq<RawShard>>, ghost blobs: Blobs,
                  ghost name: nat, ghost rows: seq<Bytes>)
    returns (shards: seq<Shard>)
    requires backends != [] && |plan| == |done| == |backends|
    requires forall i :: 0 <= i < |plan| ==> Uploaded(done[i], plan[i], backends[i], blobs, name)
    requires forall i: nat :: i < |plan| ==>
               Grouped(plan[i], rows, BlockStart(|rows|, |backends|, i), BlockStart(|rows|, |backends|, i + 1))
    ensures shards == Flatten(done)
    ensures Spread(shards, backends, blobs, name, rows, |backends|)
  {
    shards := [];
    var i := 0;
    while i < |done|
      invariant 0 <= i <= |done|
      invariant shards == Flatten(done[..i])
      invariant Spread(shards, backends, blobs, name, rows, i)
    {
      SpreadStep(shards, done[i], plan[i], backends, blobs, name, rows, i);
      FlattenTake(done, i);
      shards := shards + done[i];
      i := i + 1;
    }
    assert done[..|done|] == done;
  }

  // ---------------------------------------------------------------------
  // ShardData
  // ---------------------------------------------------------------------

  const MAX_INT: nat := 0x7fff_ffff_ffff_ffff

  predicate Registered(limits: map<BackendId, nat>, backends: seq<BackendId>) {
    forall b :: b in backends ==> b in limits
  }

  /** The smallest limit of the given backends, capped at the largest integer. */
  ghost predicate LeastLimit(limits: map<BackendId, nat>, backends: seq<BackendId>, least: nat) {
    && Registered(limits, backends)
    && least < 0x8000_0000_0000_0000 && (forall b :: b in backends ==> least <= limits[b])
    && (least == 0x7fff_ffff_ffff_ffff || exists b :: b in backends && least == limits[b])
  }

  method SmallestLimit(limits: map<BackendId, nat>, backends: seq<BackendId>) returns (r: Option<nat>)
    ensures r.Some? <==> Registered(limits, backends)
    ensures r.Some? ==> LeastLimit(limits, backends, r.value)
  {
    var least := MAX_INT;
    var i := 0;
    while i < |backends|
      invariant 0 <= i <= |backends| && least <= MAX_INT
      invariant forall b :: b in backends[..i] ==> b in limits && least <= limits[b]
      invariant least == MAX_INT || exists b :: b in backends[..i] && b in limits && least == limits[b]
    {
      if backends[i] !in limits {
        return None;
      }
      least := Min(least, limits[backends[i]]);
      assert backends[..i + 1] == backends[..i] + [backends[i]];
      i := i + 1;
    }
    assert backends[..|backends|] == backends;
    return Some(least);
  }

  /** The block of backend i, merged into as few blobs as its limit allows. */
  ghost predicate MergedBlock(blobs: seq<RawShard>, rows: seq<Bytes>, size: nat, n: nat, i: nat, limit: nat)
    requires i < n && size > 0
  {
    && Grouped(blobs, rows, BlockStart(|rows|, n, i), BlockStart(|rows|, n, i + 1))
    && WithinLimit(blobs, limit)
    && Capacity(size, limit, limit / size) && |blobs| == CeilDiv(|Block(rows, n, i)|, limit / size)
  }

  method MergeBlock(raw: seq<RawShard>, limit: nat, ghost rows: seq<Bytes>, ghost size: nat, ghost n: nat, ghost i: nat)
    returns (blobs: seq<RawShard>)
    requires i < n && Uniform(rows, size) && 0 < size <= limit && raw == Block(rows, n, i)
    ensures MergedBlock(blobs, rows, size, n, i, limit)
  {
    BlockStep(|rows|, n, i);
    CapacityIsQuotient(size, limit);
    blobs := Merge(raw, limit, rows, size, BlockStart(|rows|, n, i), limit / size);
  }

  /** Merges every backend's block up to that backend's limit. */
  method MergeAll(raw: map<BackendId, seq<RawShard>>, limits: map<BackendId, nat>, backends: seq<BackendId>,
                  ghost rows: seq<Bytes>, ghost size: nat)
    returns (plan: seq<seq<RawShard>>)
    requires backends != [] && Uniform(rows, size) && size > 0
    requires forall b :: b in backends ==> b in limits && size <= limits[b]
    requires forall i: nat {:trigger BlockAt(raw, rows, backends, i)} :: i < |backends| ==>
               BlockAt(raw, rows, backends, i)
    ensures |plan| == |backends|
    ensures forall i: nat :: i < |plan| ==> MergedBlock(plan[i], rows, size, |backends|, i, limits[backends[i]])
  {
    plan := [];
    var i := 0;
    while i < |backends|
      invariant 0 <= i == |plan| <= |backends|
      invariant forall j: nat :: j < i ==> MergedBlock(plan[j], rows, size, |backends|, j, limits[backends[j]])
    {
      assert BlockAt(raw, rows, backends, i);
      var blobs := MergeBlock(At(raw, backends[i]), limits[backends[i]], rows, size, |backends|, i);
      plan := plan + [blobs];
      i := i + 1;
    }
  }

  /** A stored blob is as long as its range says. */
  lemma BlobLength(blobs: Blobs, s: Shard, rows: seq<Bytes>, size: nat)
    requires HoldsRange(blobs, s, rows) && Uniform(rows, size)
    ensures |blobs[AddressOf(s)]| == (s.last - s.first + 1) * size
  {
    RunLength(rows, size, s.first, s.last + 1);
  }

  // ---------------------------------------------------------------------
  // What was planned
  // ---------------------------------------------------------------------

  /** The segment size for `len` bytes on these backends. */
  ghost predicate SizeFor(limits: map<BackendId, nat>, backends: seq<BackendId>, len: nat, size: nat) {
    exists least :: LeastLimit(limits, backends, least) && Chosen(len, least, size)
  }

  lemma SizeForIsUnique(limits: map<BackendId, nat>, backends: seq<BackendId>, len: nat, a: nat, b: nat)
    requires SizeFor(limits, backends, len, a) && SizeFor(limits, backends, len, b)
    ensures a == b
  {
    var x :| LeastLimit(limits, backends, x) && Chosen(len, x, a);
    var y :| LeastLimit(limits, backends, y) && Chosen(len, y, b);
    assert x == y;
    ChosenIsUnique(len, x, a, b);
  }

  /** The erasure code takes that many segments of that size. */
  ghost predicate Encodable(code: Code, f: int, limits: map<BackendId, nat>, backends: seq<BackendId>, len: nat) {
    exists size :: SizeFor(limits, backends, len, size) && Accepts(code, f, |backends|, len, size)
  }

  predicate Accepts(code: Code, f: int, n: nat, len: nat, size: nat) {
    size > 0 && f < n && code.supports(CeilDiv(len, size), NeededParity(n, CeilDiv(len, size), f), size)
  }

  /** The blobs of one backend's block of `count` segments: within its limit, and as few as that allows. */
  ghost predicate FewestAt(block: seq<Shard>, b: BackendId, limit: nat, size: nat, count: nat) {
    && 0 < size <= limit && |block| == CeilDiv(count, limit / size)
    && forall s :: s in block ==> s.backend == b && s.first <= s.last && (s.last - s.first + 1) * size <= limit
  }

  ghost predicate FewestBlocks(blocks: seq<seq<Shard>>, limits: map<BackendId, nat>, backends: seq<BackendId>,
                               size: nat, total: nat) {
    && |blocks| == |backends| && Registered(limits, backends)
    && forall i: nat {:trigger FewestIn(blocks, limits, backends, size, total, i)} :: i < |backends| ==>
         FewestIn(blocks, limits, backends, size, total, i)
  }

  ghost predicate FewestIn(blocks: seq<seq<Shard>>, limits: map<BackendId, nat>, backends: seq<BackendId>, size: nat,
                           total: nat, i: nat)
    requires i < |backends| == |blocks| && Registered(limits, backends)
  {
    FewestAt(blocks[i], backends[i], limits[backends[i]], size, BlockSize(total / |backends|, total % |backends|, i))
  }

  /** No backend holds more blobs than it must. */
  ghost predicate Fewest(shards: seq<Shard>, limits: map<BackendId, nat>, backends: seq<BackendId>, size: nat,
                         total: nat) {
    exists blocks :: shards == Flatten(blocks) && FewestBlocks(blocks, limits, backends, size, total)
  }

  lemma UploadedFewest(block: seq<Shard>, raws: seq<RawShard>, b: BackendId, blobs: Blobs, name: nat, rows: seq<Bytes>,
                       size: nat, n: nat, i: nat, limit: nat)
    requires i < n && 0 < size <= limit && Uniform(rows, size)
    requires Uploaded(block, raws, b, blobs, name) && MergedBlock(raws, rows, size, n, i, limit)
    ensures FewestAt(block, b, limit, size, BlockSize(|rows| / n, |rows| % n, i))
  {
    BlockStep(|rows|, n, i);
    UploadedBlock(block, raws, b, blobs, name, rows, BlockStart(|rows|, n, i), BlockStart(|rows|, n, i + 1));
    forall s | s in block
      ensures s.backend == b && s.first <= s.last && (s.last - s.first + 1) * size <= limit
    {
      var k :| 0 <= k < |block| && block[k] == s;
      assert HoldsRange(blobs, s, rows);
      BlobLength(blobs, s, rows, size);
    }
  }

  lemma UploadsAreFewest(done: seq<seq<Shard>>, plan: seq<seq<RawShard>>, limits: map<BackendId, nat>,
                         backends: seq<BackendId>, blobs: Blobs, name: nat, rows: seq<Bytes>, size: nat)
    requires |plan| == |done| == |backends| && Uniform(rows, size) && size > 0
    requires forall b :: b in backends ==> b in limits && size <= limits[b]
    requires forall i :: 0 <= i < |plan| ==> Uploaded(done[i], plan[i], backends[i], blobs, name)
    requires forall i: nat :: i < |plan| ==> MergedBlock(plan[i], rows, size, |backends|, i, limits[backends[i]])
    ensures FewestBlocks(done, limits, backends, size, |rows|)
  {
    forall i: nat | i < |backends|
      ensures FewestIn(done, limits, backends, size, |rows|, i)
    {
      UploadedFewest(done[i], plan[i], backends[i], blobs, name, rows, size, |backends|, i, limits[backends[i]]);
    }
  }

  /** The shards are cut as the size search and the greedy merge say. */
  ghost predicate Planned(code: Code, f: int, limits: map<BackendId, nat>, backends: seq<BackendId>, data: Bytes,
                          out: Sharded) {
    && SizeFor(limits, backends, |data|, out.size)
    && f < |backends| && out.size > 0
    && Fewest(out.shards, limits, backends, out.size, |Rows(code, f, |backends|, data, out.size)|)
  }

  /** `ShardData`. A failed call may leave blobs behind; it never touches an existing one. */
  method ShardData(store: BlobStore, code: Code, f: int, data: Bytes, backends: seq<BackendId>, refused: set<Address>)
    returns (r: Result<Sharded, ShardError>)
    requires store.Valid() && IsMDS(code) && Distinct(backends)
    requires backends != [] ==> f < |backends|
    requires forall b :: b in store.limits ==> store.limits[b] > 0
    modifies store
    ensures store.Valid() && store.nextName >= old(store.nextName)
    ensures Grew(old(store.blobs), old(store.used), store.blobs, store.used)
    ensures r == Err(NoBackends) <==> backends == []
    ensures r == Err(EmptyData) <==> backends != [] && data == []
    ensures r == Err(UnknownBackend) <==> backends != [] && data != [] && !Registered(store.limits, backends)
    ensures r == Err(EncodingFailed) <==>
            backends != [] && data != [] && Registered(store.limits, backends)
            && !Encodable(code, f, store.limits, backends, |data|)
    ensures r == Err(UploadFailed) ==> Refuses(refused, backends, old(store.nextName))
    ensures r.Ok? ==> Encodes(code, f, backends, data, store.blobs, r.value)
    ensures r.Ok? ==> Planned(code, f, store.limits, backends, data, r.value)
    ensures r.Ok? ==> OneEach(r.value.shards) && Addresses(r.value.shards) !! old(store.used) + refused
  {
    if backends == [] {
      return Err(NoBackends);
    }
    if data == [] {
      return Err(EmptyData);
    }
    var least := SmallestLimit(store.limits, backends);
    if least.None? {
      return Err(UnknownBackend);
    }
    var size := ChooseSegmentSize(|data|, least.value);
    assert SizeFor(store.limits, backends, |data|, size);
    EncodableIff(code, f, store.limits, backends, |data|, size);
    var rows, dataCount := EncodeParityShards(code, data, |backends|, size, f);
    if rows.None? {
      return Err(EncodingFailed);
    }
    var out := SpreadRows(store, code, f, data, backends, size, rows.value, dataCount, refused);
    return if out.None? then Err(UploadFailed) else Ok(out.value);
  }

  lemma EncodableIff(code: Code, f: int, limits: map<BackendId, nat>, backends: seq<BackendId>, len: nat, size: nat)
    requires SizeFor(limits, backends, len, size)
    ensures Encodable(code, f, limits, backends, len) <==> Accepts(code, f, |backends|, len, size)
  {
    if Encodable(code, f, limits, backends, len) {
      var other :| SizeFor(limits, backends, len, other) && Accepts(code, f, |backends|, len, other);
      SizeForIsUnique(limits, backends, len, size, other);
    }
  }

  /** The rest of `ShardData`: distribute, merge, upload, concatenate. */
  method SpreadRows(store: BlobStore, code: Code, f: int, data: Bytes, backends: seq<BackendId>, size: nat,
                    rows: seq<Bytes>, dataCount: nat, refused: set<Address>)
    returns (r: Option<Sharded>)
    requires store.Valid() && IsMDS(code) && Distinct(backends) && backends != [] && f < |backends| && data != []
    requires SizeFor(store.limits, backends, |data|, size) && size > 0
    requires forall b :: b in backends ==> b in store.limits && size <= store.limits[b]
    requires dataCount == |Segments(data, size)|
    requires code.supports(dataCount, NeededParity(|backends|, dataCount, f), size)
    requires rows == Rows(code, f, |backends|, data, size)
    modifies store
    ensures store.Valid() && store.nextName >= old(store.nextName)
    ensures Grew(old(store.blobs), old(store.used), store.blobs, store.used)
    ensures r.Some? ==> Encodes(code, f, backends, data, store.blobs, r.value)
    ensures r.Some? ==> Planned(code, f, store.limits, backends, data, r.value)
    ensures r.Some? ==> OneEach(r.value.shards) && Addresses(r.value.shards) !! old(store.used) + refused
    ensures r.None? ==> Refuses(refused, backends, old(store.nextName))
  {
    RowsShape(code, f, |backends|, data, size);
    var raw := Distribute(rows, backends);
    var plan := MergeAll(raw, store.limits, backends, rows, size);
    assert AllFit(store.limits, plan, backends);
    var done := UploadAll(store, plan, backends, refused);
    if done.None? {
      return None;
    }
    var shards := Gathered(done.value, backends, plan, store.blobs, old(store.nextName), rows);
    UploadsAreFewest(done.value, plan, store.limits, backends, store.blobs, old(store.nextName), rows, size);
    return Some(Sharded(shards, dataCount, size));
  }

  lemma RowsShape(code: Code, f: int, n: nat, data: Bytes, size: nat)
    requires IsMDS(code) && 0 < n && f < n && size > 0
    requires var d := |Segments(data, size)|; code.supports(d, NeededParity(n, d, f), size)
    ensures var rows, d := Rows(code, f, n, data, size), |Segments(data, size)|;
            |rows| == d + NeededParity(n, d, f) && Uniform(rows, size)
  {
    var segments := Segments(data, size);
    CodewordShape(code, segments, NeededParity(n, |segments|, f), size);
  }
}
