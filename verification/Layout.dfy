/** Spreading encoded segments over the backends and merging them into blobs (`ShardData`). */
module Layout {
  import opened Base
  import opened Parity
  import opened ErasureCode

  type BackendId = string

  datatype RawShard = RawShard(first: nat, last: nat, data: Bytes)

  /** A Go map of slices: an absent key reads as the empty slice. */
  function At<V>(m: map<BackendId, seq<V>>, b: BackendId): seq<V> {
    if b in m then m[b] else []
  }

  /** One raw shard per segment lo, ..., hi-1. */
  function Singles(rows: seq<Bytes>, lo: nat, hi: nat): seq<RawShard>
    requires lo <= hi <= |rows|
  {
    seq(hi - lo, k requires 0 <= k < hi - lo => RawShard(lo + k, lo + k, rows[lo + k]))
  }

  /** Where the block of backend i begins when `total` segments go to n backends. */
  function BlockStart(total: nat, n: nat, i: nat): (lo: nat)
    requires 0 < n && i <= n
    ensures lo <= total
    ensures i == n ==> lo == total
  {
    StartEnd(n, total);
    StartMonotone(total / n, total % n, i, n);
    Start(total / n, total % n, i)
  }

  lemma BlockStep(total: nat, n: nat, i: nat)
    requires i < n
    ensures BlockStart(total, n, i + 1) == BlockStart(total, n, i) + BlockSize(total / n, total % n, i)
  {
  }

  /** The raw shards of backend i: its block, segment by segment. */
  function Block(rows: seq<Bytes>, n: nat, i: nat): seq<RawShard>
    requires i < n
  {
    BlockStep(|rows|, n, i);
    Singles(rows, BlockStart(|rows|, n, i), BlockStart(|rows|, n, i + 1))
  }

  /** The inner loop: gives segments lo, ..., lo+count-1 to backend b. */
  method AppendBlock(rows: seq<Bytes>, lo: nat, count: nat, before: map<BackendId, seq<RawShard>>, b: BackendId)
    returns (raw: map<BackendId, seq<RawShard>>, nextIndex: nat)
    requires lo + count <= |rows| && b !in before
    ensures nextIndex == lo + count
    ensures At(raw, b) == Singles(rows, lo, nextIndex)
    ensures forall a :: a != b ==> (a in raw <==> a in before) && At(raw, a) == At(before, a)
  {
    raw, nextIndex := before, lo;
    var c := 0;
    while c < count
      invariant 0 <= c <= count && nextIndex == lo + c
      invariant forall a :: a != b ==> (a in raw <==> a in before) && At(raw, a) == At(before, a)
      invariant At(raw, b) == Singles(rows, lo, nextIndex)
    {
      raw := raw[b := At(raw, b) + [RawShard(nextIndex, nextIndex, rows[nextIndex])]];
      nextIndex := nextIndex + 1;
      c := c + 1;
    }
  }

  /** Backend i has its block. */
  predicate BlockAt(raw: map<BackendId, seq<RawShard>>, rows: seq<Bytes>, backends: seq<BackendId>, i: nat)
    requires i < |backends|
  {
    At(raw, backends[i]) == Block(rows, |backends|, i)
  }

  /** Hands each backend a contiguous block of segments. */
  method Distribute(rows: seq<Bytes>, backends: seq<BackendId>) returns (raw: map<BackendId, seq<RawShard>>)
    requires backends != [] && Distinct(backends)
    ensures forall i: nat {:trigger BlockAt(raw, rows, backends, i)} :: i < |backends| ==>
              BlockAt(raw, rows, backends, i)
  {
    raw := map[];
    var n := |backends|;
    var baseCount := |rows| / n;
    var extraCount := |rows| % n;
    var nextIndex := 0;
    var k := 0;
    while k < n
      invariant 0 <= k <= n && nextIndex == BlockStart(|rows|, n, k)
      invariant forall i: nat :: i < k ==> At(raw, backends[i]) == Block(rows, n, i)
      invariant forall i :: k <= i < n ==> backends[i] !in raw
    {
      var count := baseCount;
      if k < extraCount {
        count := count + 1;
      }
      BlockStep(|rows|, n, k);
      raw, nextIndex := AppendBlock(rows, nextIndex, count, raw, backends[k]);
      k := k + 1;
    }
  }

  // ---------------------------------------------------------------------
  // Merging
  // ---------------------------------------------------------------------

  /** `blobs` cut the segments lo, ..., hi-1 into consecutive non-empty runs, each holding its bytes. */
  ghost predicate Grouped(blobs: seq<RawShard>, rows: seq<Bytes>, lo: nat, hi: nat) {
    && lo <= hi <= |rows|
    && if blobs == [] then lo == hi
       else
         var s := blobs[|blobs| - 1];
         && lo <= s.first <= s.last == hi - 1
         && s.data == Flatten(rows[s.first..hi])
         && Grouped(blobs[..|blobs| - 1], rows, lo, s.first)
  }

  ghost predicate WithinLimit(blobs: seq<RawShard>, limit: nat) {
    forall k :: 0 <= k < |blobs| ==> |blobs[k].data| <= limit
  }

  lemma RunLength(rows: seq<Bytes>, size: nat, lo: nat, hi: nat)
    requires lo <= hi <= |rows| && Uniform(rows, size)
    ensures |Flatten(rows[lo..hi])| == (hi - lo) * size
  {
    FlattenLength(rows[lo..hi], size);
  }

  /** The inner loop: segments from i on, as long as they fit. */
  method TakeRun(raw: seq<RawShard>, i: nat, limit: nat,
                 ghost rows: seq<Bytes>, ghost size: nat, ghost lo: nat, ghost cap: nat)
    returns (j: nat, mergedData: Bytes)
    requires Uniform(rows, size) && Capacity(size, limit, cap) && i < |raw|
    requires lo + |raw| <= |rows| && raw == Singles(rows, lo, lo + |raw|)
    ensures i <= j <= |raw| && mergedData == Flatten(rows[lo + i..lo + j]) && |mergedData| <= limit
    ensures j - i == Min(cap, |raw| - i)
  {
    mergedData := [];
    j := i;
    while j < |raw| && |mergedData| + |raw[j].data| <= limit
      invariant i <= j <= |raw|
      invariant mergedData == Flatten(rows[lo + i..lo + j])
      invariant |mergedData| == (j - i) * size <= limit
    {
      assert rows[lo + i..lo + j] + [raw[j].data] == rows[lo + i..lo + j + 1];
      FlattenSnoc(rows[lo + i..lo + j], raw[j].data);
      MulAdd(j - i, 1, size);
      mergedData := mergedData + raw[j].data;
      j := j + 1;
    }
    MulAdd(j - i, 1, size);
    FitsIff(j - i, size, limit, cap);
    FitsIff(j - i + 1, size, limit, cap);
  }

  /** Greedy merging: always advances, stays within the limit, and uses ceil(count / cap) blobs. */
  method Merge(raw: seq<RawShard>, limit: nat,
               ghost rows: seq<Bytes>, ghost size: nat, ghost lo: nat, ghost cap: nat)
    returns (blobs: seq<RawShard>)
    requires Uniform(rows, size) && Capacity(size, limit, cap)
    requires lo + |raw| <= |rows| && raw == Singles(rows, lo, lo + |raw|)
    ensures Grouped(blobs, rows, lo, lo + |raw|) && WithinLimit(blobs, limit)
    ensures |blobs| == CeilDiv(|raw|, cap)
  {
    blobs := [];
    var i := 0;
    while i < |raw|
      invariant 0 <= i <= |raw|
      invariant Grouped(blobs, rows, lo, lo + i) && WithinLimit(blobs, limit)
      invariant |blobs| + CeilDiv(|raw| - i, cap) == CeilDiv(|raw|, cap)
    {
      var j, mergedData := TakeRun(raw, i, limit, rows, size, lo, cap);
      var blob := RawShard(raw[i].first, raw[j - 1].last, mergedData);
      GroupedSnoc(blobs, blob, rows, lo);
      CeilDivBatch(|raw| - i, cap);
      blobs := blobs + [blob];
      i := j;
    }
    CeilDivUnique(0, cap, 0);
  }

  lemma GroupedSnoc(blobs: seq<RawShard>, s: RawShard, rows: seq<Bytes>, lo: nat)
    requires Grouped(blobs, rows, lo, s.first) && s.first <= s.last < |rows|
    requires s.data == Flatten(rows[s.first..s.last + 1])
    ensures Grouped(blobs + [s], rows, lo, s.last + 1)
  {
    assert (blobs + [s])[..|blobs|] == blobs;
  }

  /** No grouping into contiguous runs within the limit uses fewer blobs than greedy merging does. */
  lemma FewestBlobs(blobs: seq<RawShard>, rows: seq<Bytes>, size: nat, limit: nat, cap: nat, lo: nat, hi: nat)
    requires Uniform(rows, size) && Capacity(size, limit, cap)
    requires Grouped(blobs, rows, lo, hi) && WithinLimit(blobs, limit)
    ensures CeilDiv(hi - lo, cap) <= |blobs|
  {
    RunsAreBounded(blobs, rows, size, limit, cap, lo, hi);
    CeilDivLeast(hi - lo, cap, |blobs|);
  }

  lemma {:induction false} RunsAreBounded(blobs: seq<RawShard>, rows: seq<Bytes>, size: nat, limit: nat, cap: nat,
                                          lo: nat, hi: nat)
    requires Uniform(rows, size) && Capacity(size, limit, cap)
    requires Grouped(blobs, rows, lo, hi) && WithinLimit(blobs, limit)
    ensures hi - lo <= cap * |blobs|
  {
    if blobs != [] {
      var k, s := |blobs| - 1, blobs[|blobs| - 1];
      RunsAreBounded(blobs[..k], rows, size, limit, cap, lo, s.first);
      RunLength(rows, size, s.first, hi);
      FitsIff(hi - s.first, size, limit, cap);
      MulAdd(k, 1, cap);
    }
  }
}
