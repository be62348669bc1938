/** What collecting yields for the blobs of one encoding, and which failures it survives. */
module FaultTolerance {
  import opened Base
  import opened Parity
  import opened ErasureCode
  import opened Layout
  import opened Backends
  import opened Sharding
  import opened Collecting

  /** Some readable shard covers segment k. */
  ghost predicate CanRead(blobs: Blobs, down: set<BackendId>, shards: seq<Shard>, k: int) {
    exists s :: s in shards && Read(blobs, down, AddressOf(s)).Some? && s.first <= k <= s.last
  }

  /** The distinct segment indices that can be read. */
  ghost function Readable(blobs: Blobs, down: set<BackendId>, shards: seq<Shard>, total: nat): (r: set<int>)
    ensures forall k :: k in r <==> 0 <= k < total && CanRead(blobs, down, shards, k)
  {
    set k: int | 0 <= k < total && CanRead(blobs, down, shards, k)
  }

  /** Every blob that is there holds its range of the same encoded segments. */
  ghost predicate FromOneEncoding(blobs: Blobs, shards: seq<Shard>, rows: seq<Bytes>) {
    forall s :: s in shards && AddressOf(s) in blobs ==> HoldsRange(blobs, s, rows)
  }

  function Mask(rows: seq<Bytes>, known: set<int>): Slots {
    seq(|rows|, i requires 0 <= i < |rows| => if i in known then Some(rows[i]) else None)
  }

  lemma FillMask(blobs: Blobs, s: Shard, rows: seq<Bytes>, size: nat, known: set<int>)
    requires HoldsRange(blobs, s, rows) && Uniform(rows, size)
    ensures PayloadFits(s, blobs[AddressOf(s)], size, |rows|)
    ensures FillFrom(Mask(rows, known), s, blobs[AddressOf(s)], size)
         == Mask(rows, known + Interval(s.first, s.last + 1))
  {
    var run := rows[s.first..s.last + 1];
    BlobLength(blobs, s, rows, size);
    forall i: nat | s.first <= i <= s.last
      ensures Slice(Flatten(run), size, i - s.first) == rows[i]
    {
      FlattenUniform(run, size, i - s.first);
    }
  }

  lemma {:induction false} GatherMasks(blobs: Blobs, down: set<BackendId>, shards: seq<Shard>, rows: seq<Bytes>,
                                       size: nat, known: set<int>)
    requires FromOneEncoding(blobs, shards, rows) && Uniform(rows, size)
    ensures Gather(blobs, down, shards, size, Mask(rows, known))
         == Ok(Mask(rows, known + Readable(blobs, down, shards, |rows|)))
  {
    if shards == [] {
      assert Readable(blobs, down, shards, |rows|) == {};
      assert known + {} == known;
    } else {
      var s, tail := shards[0], shards[1..];
      assert forall x :: x in shards <==> x == s || x in tail;
      var rest := Readable(blobs, down, tail, |rows|);
      var all := Readable(blobs, down, shards, |rows|);
      if Read(blobs, down, AddressOf(s)).None? {
        GatherMasks(blobs, down, tail, rows, size, known);
        assert all == rest;
      } else {
        var range := Interval(s.first, s.last + 1);
        FillMask(blobs, s, rows, size, known);
        GatherMasks(blobs, down, tail, rows, size, known + range);
        assert all == range + rest;
        assert known + range + rest == known + all;
      }
    }
  }

  lemma GatherOutcome(blobs: Blobs, down: set<BackendId>, shards: seq<Shard>, rows: seq<Bytes>, size: nat)
    requires FromOneEncoding(blobs, shards, rows) && Uniform(rows, size)
    ensures var known := Readable(blobs, down, shards, |rows|);
            && Gather(blobs, down, shards, size, Empty(|rows|)) == Ok(Mask(rows, known))
            && Present(Mask(rows, known)) == known
            && Matches(Mask(rows, known), rows)
  {
    var known := Readable(blobs, down, shards, |rows|);
    assert Empty(|rows|) == Mask(rows, {});
    GatherMasks(blobs, down, shards, rows, size, {});
    assert {} + known == known;
  }

  /** Collecting succeeds exactly when d distinct segments are readable, and then yields the data. */
  lemma CollectOutcome(code: Code, blobs: Blobs, down: set<BackendId>, shards: seq<Shard>, data: seq<Bytes>, p: nat,
                       size: nat)
    requires IsMDS(code) && Uniform(data, size) && code.supports(|data|, p, size)
    requires FromOneEncoding(blobs, shards, Codeword(code, data, p))
    ensures Collect(code, blobs, down, shards, size, |data|, p)
         == if |Readable(blobs, down, shards, |data| + p)| >= |data| then Ok(Flatten(data)) else Err(NotEnoughShards)
  {
    var slots := FilledFor(code, blobs, down, shards, data, p, size);
    CollectFrom(code, blobs, down, shards, data, p, size, slots);
  }

  lemma FilledFor(code: Code, blobs: Blobs, down: set<BackendId>, shards: seq<Shard>, data: seq<Bytes>, p: nat,
                  size: nat) returns (slots: Slots)
    requires IsMDS(code) && Uniform(data, size) && code.supports(|data|, p, size)
    requires FromOneEncoding(blobs, shards, Codeword(code, data, p))
    ensures Gather(blobs, down, shards, size, Empty(|data| + p)) == Ok(slots)
    ensures |Present(slots)| == |Readable(blobs, down, shards, |data| + p)| && Matches(slots, Codeword(code, data, p))
  {
    CodewordShape(code, data, p, size);
    slots := Filled(blobs, down, shards, Codeword(code, data, p), size);
  }

  lemma Filled(blobs: Blobs, down: set<BackendId>, shards: seq<Shard>, rows: seq<Bytes>, size: nat)
    returns (slots: Slots)
    requires FromOneEncoding(blobs, shards, rows) && Uniform(rows, size)
    ensures Gather(blobs, down, shards, size, Empty(|rows|)) == Ok(slots)
    ensures |Present(slots)| == |Readable(blobs, down, shards, |rows|)| && Matches(slots, rows)
  {
    GatherOutcome(blobs, down, shards, rows, size);
    slots := Mask(rows, Readable(blobs, down, shards, |rows|));
  }

  /** What collecting makes of the slots it has filled. */
  lemma CollectFrom(code: Code, blobs: Blobs, down: set<BackendId>, shards: seq<Shard>, data: seq<Bytes>, p: nat,
                    size: nat, slots: Slots)
    requires IsMDS(code) && Uniform(data, size) && code.supports(|data|, p, size)
    requires Gather(blobs, down, shards, size, Empty(|data| + p)) == Ok(slots)
    requires Matches(slots, Codeword(code, data, p))
    ensures Collect(code, blobs, down, shards, size, |data|, p)
         == if |Present(slots)| >= |data| then Ok(Flatten(data)) else Err(NotEnoughShards)
  {
    if |Present(slots)| >= |data| {
      Rebuilds(code, data, p, size, slots);
      CodewordShape(code, data, p, size);
    }
  }

  /** Neither the order of the shard descriptors nor repetitions among them matter. */
  lemma OrderAndRepetitionDoNotMatter(code: Code, blobs: Blobs, down: set<BackendId>, shards: seq<Shard>,
                                      others: seq<Shard>, data: seq<Bytes>, p: nat, size: nat)
    requires IsMDS(code) && Uniform(data, size) && code.supports(|data|, p, size)
    requires FromOneEncoding(blobs, shards, Codeword(code, data, p))
    requires forall s :: s in shards <==> s in others
    ensures Collect(code, blobs, down, shards, size, |data|, p) == Collect(code, blobs, down, others, size, |data|, p)
  {
    CollectOutcome(code, blobs, down, shards, data, p, size);
    CollectOutcome(code, blobs, down, others, data, p, size);
    assert Readable(blobs, down, shards, |data| + p) == Readable(blobs, down, others, |data| + p);
  }

  // ---------------------------------------------------------------------
  // Surviving failures
  // ---------------------------------------------------------------------

  /** The positions of the failed backends. */
  ghost function FailedAt(backends: seq<BackendId>, down: set<BackendId>): (who: set<nat>)
    ensures forall i: nat :: i in who <==> i < |backends| && backends[i] in down
  {
    set i: nat | i < |backends| && backends[i] in down
  }

  lemma {:induction false} FailedAtSize(backends: seq<BackendId>, down: set<BackendId>)
    requires Distinct(backends)
    ensures |FailedAt(backends, down)| <= |down|
  {
    if backends == [] {
      assert FailedAt(backends, down) == {};
    } else {
      var k := |backends| - 1;
      var init, b := backends[..k], backends[k];
      FailedAtSize(init, down - {b});
      var before := FailedAt(init, down - {b});
      if b in down {
        assert FailedAt(backends, down) == before + {k};
      } else {
        assert FailedAt(backends, down) == before;
        assert down - {b} == down;
      }
    }
  }

  /** A segment outside the failed backends' blocks is readable. */
  lemma LeftIsReadable(backends: seq<BackendId>, down: set<BackendId>, blobs: Blobs, shards: seq<Shard>,
                       rows: seq<Bytes>, k: int)
    requires backends != [] && Covers(shards, 0, |rows|) && Stored(blobs, shards, rows)
    requires forall s :: s in shards ==> Placed(s, backends, |rows|)
    requires k in LeftOf(|backends|, |rows|, FailedAt(backends, down))
    ensures CanRead(blobs, down, shards, k)
  {
    var n, total := |backends|, |rows|;
    var who := FailedAt(backends, down);
    var s := CoversFinds(shards, 0, total, k);
    var i: nat :| i < n && PlacedAt(s, backends, total, i);
    assert InBlock(total / n, total % n, i, k);
    HeldMembers(total / n, total % n, who, n, k);
    assert i !in who;
  }

  /** The parity count `processChunk` recomputes from the largest last index. */
  function MaxLast(shards: seq<Shard>): nat {
    if shards == [] then 0 else Max(shards[0].last, MaxLast(shards[1..]))
  }

  lemma {:induction false} MaxLastBound(shards: seq<Shard>, s: Shard)
    requires s in shards
    ensures s.last <= MaxLast(shards)
    ensures exists t :: t in shards && t.last == MaxLast(shards)
  {
    if |shards| > 1 {
      MaxLastBound(shards[1..], if s == shards[0] then shards[1] else s);
    }
  }

  lemma MaxLastOfCover(shards: seq<Shard>, total: nat)
    requires Covers(shards, 0, total) && total > 0
    ensures MaxLast(shards) == total - 1
  {
    var s := shards[|shards| - 1];
    MaxLastBound(shards, s);
    var t :| t in shards && t.last == MaxLast(shards);
    CoversBounds(shards, 0, total, t);
  }

  lemma EnoughReadable(f: int, backends: seq<BackendId>, down: set<BackendId>, blobs: Blobs, shards: seq<Shard>,
                       rows: seq<Bytes>, d: nat)
    requires backends != [] && f < |backends| && Distinct(backends) && |down| <= Max(0, f)
    requires |rows| == d + NeededParity(|backends|, d, f)
    requires Covers(shards, 0, |rows|) && Stored(blobs, shards, rows)
    requires forall s :: s in shards ==> Placed(s, backends, |rows|)
    ensures |Readable(blobs, down, shards, |rows|)| >= d
  {
    var n, who := |backends|, FailedAt(backends, down);
    FailedAtSize(backends, down);
    EnoughSegmentsSurvive(n, d, f, |rows|, who);
    var left := LeftOf(n, |rows|, who);
    forall k | k in left
      ensures CanRead(blobs, down, shards, k)
    {
      LeftIsReadable(backends, down, blobs, shards, rows, k);
    }
    SubsetSize(left, Readable(blobs, down, shards, |rows|));
  }

  /** Of whatever blobs are left of an encoding, and whichever backends are down: collecting yields the
      data if enough distinct segments are readable, and fails otherwise. It never yields anything else. */
  lemma OutcomeOfEncoding(code: Code, f: int, backends: seq<BackendId>, data: Bytes, blobs: Blobs, out: Sharded,
                          less: Blobs, down: set<BackendId>)
    requires IsMDS(code) && Encodes(code, f, backends, data, blobs, out) && Keeps(less, blobs)
    ensures MaxLast(out.shards) + 1 >= out.dataCount && Covers(out.shards, 0, MaxLast(out.shards) + 1)
    ensures var p := MaxLast(out.shards) + 1 - out.dataCount;
            Collect(code, less, down, out.shards, out.size, out.dataCount, p)
            == if |Readable(less, down, out.shards, out.dataCount + p)| >= out.dataCount
               then Ok(Flatten(Segments(data, out.size))) else Err(NotEnoughShards)
  {
    ParityFromLast(code, f, backends, data, blobs, out);
    FromOneEncodingKept(blobs, less, out.shards, Rows(code, f, |backends|, data, out.size));
    CollectOutcome(code, less, down, out.shards, Segments(data, out.size), NeededParity(|backends|, out.dataCount, f),
                   out.size);
  }

  /** The largest last index recovers the parity count that the tolerance asked for. */
  lemma ParityFromLast(code: Code, f: int, backends: seq<BackendId>, data: Bytes, blobs: Blobs, out: Sharded)
    requires IsMDS(code) && Encodes(code, f, backends, data, blobs, out)
    ensures MaxLast(out.shards) + 1 == out.dataCount + NeededParity(|backends|, out.dataCount, f)
    ensures MaxLast(out.shards) + 1 == |Rows(code, f, |backends|, data, out.size)|
    ensures Covers(out.shards, 0, MaxLast(out.shards) + 1)
  {
    RowsShape(code, f, |backends|, data, out.size);
    assert Segments(data, out.size) != [];
    MaxLastOfCover(out.shards, |Rows(code, f, |backends|, data, out.size)|);
  }

  /** Any at most f failed backends leave enough segments readable. */
  lemma FailuresLeaveEnough(code: Code, f: int, backends: seq<BackendId>, data: Bytes, blobs: Blobs, out: Sharded,
                            down: set<BackendId>)
    requires IsMDS(code) && Distinct(backends) && Encodes(code, f, backends, data, blobs, out) && |down| <= Max(0, f)
    ensures |Readable(blobs, down, out.shards, MaxLast(out.shards) + 1)| >= out.dataCount
  {
    ParityFromLast(code, f, backends, data, blobs, out);
    EnoughReadable(f, backends, down, blobs, out.shards, Rows(code, f, |backends|, data, out.size), out.dataCount);
  }

  /** The central promise: after a successful `ShardData`, any at most f failed backends leave the data readable. */
  lemma AnyFailuresAreSurvived(code: Code, f: int, backends: seq<BackendId>, data: Bytes, blobs: Blobs, out: Sharded,
                               down: set<BackendId>)
    requires IsMDS(code) && Distinct(backends) && Encodes(code, f, backends, data, blobs, out)
    requires |down| <= Max(0, f)
    ensures MaxLast(out.shards) + 1 >= out.dataCount
    ensures var p := MaxLast(out.shards) + 1 - out.dataCount;
            var r := Collect(code, blobs, down, out.shards, out.size, out.dataCount, p);
            r.Ok? && |r.value| >= |data| && r.value[..|data|] == data
  {
    OutcomeOfEncoding(code, f, backends, data, blobs, out, blobs, down);
    FailuresLeaveEnough(code, f, backends, data, blobs, out, down);
    SegmentsRestore(data, out.size);
  }

  // ---------------------------------------------------------------------
  // What collecting depends on
  // ---------------------------------------------------------------------

  /** Fewer blobs of one encoding are still blobs of that encoding. */
  lemma FromOneEncodingKept(blobs: Blobs, less: Blobs, shards: seq<Shard>, rows: seq<Bytes>)
    requires FromOneEncoding(blobs, shards, rows) && Keeps(less, blobs)
    ensures FromOneEncoding(less, shards, rows)
  {
  }

  ghost predicate SameBlobs(a: Blobs, b: Blobs, shards: seq<Shard>) {
    forall s :: s in shards ==> Read(a, {}, AddressOf(s)) == Read(b, {}, AddressOf(s))
  }

  lemma ReadableFrame(a: Blobs, b: Blobs, down: set<BackendId>, shards: seq<Shard>, total: nat)
    requires SameBlobs(a, b, shards)
    ensures Readable(a, down, shards, total) == Readable(b, down, shards, total)
  {
    forall k
      ensures CanRead(a, down, shards, k) <==> CanRead(b, down, shards, k)
    {
      assert forall s :: s in shards ==> Read(a, {}, AddressOf(s)) == Read(b, {}, AddressOf(s));
    }
  }

  lemma {:induction false} GatherFrame(a: Blobs, b: Blobs, down: set<BackendId>, shards: seq<Shard>, size: nat,
                                       slots: Slots)
    requires SameBlobs(a, b, shards)
    ensures Gather(a, down, shards, size, slots) == Gather(b, down, shards, size, slots)
  {
    if shards != [] {
      var s := shards[0];
      assert Read(a, {}, AddressOf(s)) == Read(b, {}, AddressOf(s));
      assert Read(a, down, AddressOf(s)) == Read(b, down, AddressOf(s));
      GatherFrame(a, b, down, shards[1..], size, slots);
      var data := Read(a, down, AddressOf(s));
      if data.Some? {
        GatherFrame(a, b, down, shards[1..], size, FillFrom(slots, s, data.value, size));
      }
    }
  }
}
