/** What one worker plans before its first upload, and what its uploads come to. */
module Planning {
  import opened Base
  import opened SegmentSize
  import opened ErasureCode
  import opened Layout
  import opened Backends
  import opened Sharding

  /** The blobs of every backend: the searched segment size, and each block merged into as few as the limit allows. */
  ghost predicate PlanOk(code: Code, f: int, limits: map<BackendId, nat>, backends: seq<BackendId>, data: Bytes,
                         size: nat, plan: seq<seq<RawShard>>)
  {
    && data != [] && SizeFor(limits, backends, |data|, size) && Registered(limits, backends)
    && Accepts(code, f, |backends|, |data|, size) && |plan| == |backends|
    && forall i: nat {:trigger Merged(code, f, limits, backends, data, size, plan, i)} :: i < |backends| ==>
         Merged(code, f, limits, backends, data, size, plan, i)
  }

  ghost predicate Merged(code: Code, f: int, limits: map<BackendId, nat>, backends: seq<BackendId>, data: Bytes,
                         size: nat, plan: seq<seq<RawShard>>, i: nat)
    requires i < |backends| == |plan| && Registered(limits, backends) && Accepts(code, f, |backends|, |data|, size)
  {
    MergedBlock(plan[i], Rows(code, f, |backends|, data, size), size, |backends|, i, limits[backends[i]])
  }

  lemma SizeFits(limits: map<BackendId, nat>, backends: seq<BackendId>, len: nat, size: nat, b: BackendId)
    requires SizeFor(limits, backends, len, size) && b in backends
    ensures b in limits && 0 < size <= limits[b]
  {
    var least :| LeastLimit(limits, backends, least) && Chosen(len, least, size);
    ChosenIsUnique(len, least, size, size);
  }

  /** Some grouping into as few blobs as the limit allows. */
  lemma {:induction false} MergeExists(rows: seq<Bytes>, size: nat, limit: nat, cap: nat, lo: nat, hi: nat)
    returns (blobs: seq<RawShard>)
    requires Uniform(rows, size) && Capacity(size, limit, cap) && lo <= hi <= |rows|
    ensures Grouped(blobs, rows, lo, hi) && WithinLimit(blobs, limit) && |blobs| == CeilDiv(hi - lo, cap)
    decreases hi
  {
    if lo == hi {
      blobs := [];
      CeilDivUnique(0, cap, 0);
    } else {
      var n := Min(cap, hi - lo);
      var before := MergeExists(rows, size, limit, cap, lo, hi - n);
      CeilDivBatch(hi - lo, cap);
      RunLength(rows, size, hi - n, hi);
      FitsIff(n, size, limit, cap);
      var last := RawShard(hi - n, hi - 1, Flatten(rows[hi - n..hi]));
      GroupedSnoc(before, last, rows, lo);
      blobs := before + [last];
    }
  }

  lemma {:induction false} BlocksExist(rows: seq<Bytes>, size: nat, limits: map<BackendId, nat>,
                                       backends: seq<BackendId>, k: nat)
    returns (plan: seq<seq<RawShard>>)
    requires backends != [] && k <= |backends| && Uniform(rows, size) && size > 0
    requires forall b :: b in backends ==> b in limits && size <= limits[b]
    ensures |plan| == k
    ensures forall i: nat :: i < k ==> MergedBlock(plan[i], rows, size, |backends|, i, limits[backends[i]])
  {
    if k == 0 {
      plan := [];
    } else {
      var before := BlocksExist(rows, size, limits, backends, k - 1);
      var n, limit := |backends|, limits[backends[k - 1]];
      BlockStep(|rows|, n, k - 1);
      CapacityIsQuotient(size, limit);
      var lo, hi := BlockStart(|rows|, n, k - 1), BlockStart(|rows|, n, k);
      var block := MergeExists(rows, size, limit, limit / size, lo, hi);
      plan := before + [block];
    }
  }

  /** Whatever the code takes at the searched size can be planned. */
  lemma PlanExists(code: Code, f: int, limits: map<BackendId, nat>, backends: seq<BackendId>, data: Bytes, size: nat)
    returns (plan: seq<seq<RawShard>>)
    requires IsMDS(code) && data != [] && SizeFor(limits, backends, |data|, size)
    requires Accepts(code, f, |backends|, |data|, size)
    requires backends != []
    ensures PlanOk(code, f, limits, backends, data, size, plan)
  {
    forall b | b in backends
      ensures b in limits && size <= limits[b]
    {
      SizeFits(limits, backends, |data|, size, b);
    }
    SegmentsCount(data, size);
    RowsShape(code, f, |backends|, data, size);
    var rows := Rows(code, f, |backends|, data, size);
    plan := BlocksExist(rows, size, limits, backends, |backends|);
    forall i: nat | i < |backends|
      ensures Merged(code, f, limits, backends, data, size, plan, i)
    {
    }
  }

  // ---------------------------------------------------------------------
  // Uploading what was planned
  // ---------------------------------------------------------------------

  /** Every planned blob has been uploaded. */
  ghost predicate AllUploaded(plan: seq<seq<RawShard>>, done: seq<seq<Shard>>) {
    |plan| == |done| && forall i :: 0 <= i < |plan| ==> |done[i]| == |plan[i]|
  }

  lemma {:induction false} BlocksSpread(done: seq<seq<Shard>>, plan: seq<seq<RawShard>>, backends: seq<BackendId>,
                                        blobs: Blobs, rows: seq<Bytes>, k: nat)
    requires backends != [] && |plan| == |done| == |backends| && k <= |backends|
    requires forall i :: 0 <= i < |plan| ==> Uploaded(done[i], plan[i], backends[i], blobs, 0)
    requires forall i: nat :: i < |plan| ==>
               Grouped(plan[i], rows, BlockStart(|rows|, |backends|, i), BlockStart(|rows|, |backends|, i + 1))
    ensures Spread(Flatten(done[..k]), backends, blobs, 0, rows, k)
  {
    if k > 0 {
      BlocksSpread(done, plan, backends, blobs, rows, k - 1);
      SpreadStep(Flatten(done[..k - 1]), done[k - 1], plan[k - 1], backends, blobs, 0, rows, k - 1);
      FlattenTake(done, k - 1);
    }
  }

  /** When all that was planned is uploaded, the blobs encode the data. */
  lemma FinishedEncodes(code: Code, f: int, limits: map<BackendId, nat>, backends: seq<BackendId>, data: Bytes,
                        size: nat, plan: seq<seq<RawShard>>, done: seq<seq<Shard>>, blobs: Blobs)
    requires IsMDS(code) && PlanOk(code, f, limits, backends, data, size, plan) && backends != []
    requires Progress(plan, backends, done, blobs, 0) && AllUploaded(plan, done)
    ensures Encodes(code, f, backends, data, blobs, Sharded(Flatten(done), |Segments(data, size)|, size))
  {
    var rows := Rows(code, f, |backends|, data, size);
    SegmentsCount(data, size);
    forall i: nat | i < |plan|
      ensures Uploaded(done[i], plan[i], backends[i], blobs, 0)
      ensures Grouped(plan[i], rows, BlockStart(|rows|, |backends|, i), BlockStart(|rows|, |backends|, i + 1))
    {
      assert plan[i][..|done[i]|] == plan[i];
      assert Merged(code, f, limits, backends, data, size, plan, i);
    }
    BlocksSpread(done, plan, backends, blobs, rows, |backends|);
    assert done[..|backends|] == done;
  }

  lemma ExtendProgress(plan: seq<seq<RawShard>>, backends: seq<BackendId>, done: seq<seq<Shard>>, blobs: Blobs,
                       more: Blobs, i: nat, x: Shard)
    requires Progress(plan, backends, done, blobs, 0) && Keeps(blobs, more) && i < |plan| && |done[i]| < |plan[i]|
    requires var raw := plan[i][|done[i]|];
             && x.first == raw.first && x.last == raw.last && x.backend == backends[i]
             && AddressOf(x) in more && more[AddressOf(x)] == raw.data
    ensures Progress(plan, backends, Extend(done, i, x), more, 0)
  {
    ProgressKept(plan, backends, done, blobs, more, 0);
    var k := |done[i]|;
    assert plan[i][..k + 1] == plan[i][..k] + [plan[i][k]];
  }

  /** What is stored so far depends only on the addresses used so far. */
  lemma ProgressFrame(plan: seq<seq<RawShard>>, backends: seq<BackendId>, done: seq<seq<Shard>>, a: Blobs, b: Blobs)
    requires Progress(plan, backends, done, a, 0)
    requires forall x :: x in Addresses(Flatten(done)) && x in a ==> x in b && b[x] == a[x]
    ensures Progress(plan, backends, done, b, 0)
  {
    forall i, k | 0 <= i < |plan| && 0 <= k < |done[i]|
      ensures AddressOf(done[i][k]) in b && b[AddressOf(done[i][k])] == plan[i][k].data
    {
      assert Uploaded(done[i], plan[i][..|done[i]|], backends[i], a, 0);
      FlattenHas(done, done[i][k]);
      assert AddressOf(done[i][k]) in Addresses(Flatten(done));
    }
  }
}
