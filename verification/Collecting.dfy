/** `CollectShards`: rebuild a chunk from whatever can still be read, and `DestroyShards`. */
module Collecting {
  import opened Base
  import opened ErasureCode
  import opened Layout
  import opened Backends
  import opened Sharding

  type Slots = seq<Option<Bytes>>

  datatype CollectError = InvalidPayload | NotEnoughShards | ReconstructionFailed

  function Empty(n: nat): Slots {
    seq(n, _ => None)
  }

  /** The k-th slice of `size` bytes. */
  function Slice(data: Bytes, size: nat, k: nat): Bytes {
    if k * size <= (k + 1) * size <= |data| then data[k * size..(k + 1) * size] else []
  }

  predicate PayloadFits(s: Shard, data: Bytes, size: nat, total: nat) {
    s.first <= s.last ==> s.last < total && (s.last - s.first + 1) * size <= |data|
  }

  /** The slots after copying consecutive slices of `data` into those of lo, ..., hi-1 that are empty. */
  function FillRange(slots: Slots, lo: nat, hi: nat, data: Bytes, size: nat): Slots {
    seq(|slots|, i requires 0 <= i < |slots| =>
      if slots[i].None? && lo <= i < hi then Some(Slice(data, size, i - lo)) else slots[i])
  }

  function FillFrom(slots: Slots, s: Shard, data: Bytes, size: nat): Slots {
    FillRange(slots, s.first, s.last + 1, data, size)
  }

  /** Reads the shards in order; unreadable ones are skipped. */
  function Gather(blobs: Blobs, down: set<BackendId>, shards: seq<Shard>, size: nat,
                  slots: Slots): Result<Slots, CollectError> {
    if shards == [] then Ok(slots)
    else
      match Read(blobs, down, AddressOf(shards[0]))
      case None => Gather(blobs, down, shards[1..], size, slots)
      case Some(data) =>
        if PayloadFits(shards[0], data, size, |slots|)
        then Gather(blobs, down, shards[1..], size, FillFrom(slots, shards[0], data, size))
        else Err(InvalidPayload)
  }

  function Collect(code: Code, blobs: Blobs, down: set<BackendId>, shards: seq<Shard>, size: nat, d: nat, p: nat)
    : Result<Bytes, CollectError>
  {
    match Gather(blobs, down, shards, size, Empty(d + p))
    case Err(e) => Err(e)
    case Ok(slots) =>
      if |Present(slots)| < d then Err(NotEnoughShards)
      else if !code.supports(d, p, size) then Err(ReconstructionFailed)
      else
        var word := code.rebuild(slots, d, p);
        if word.None? || |word.value| < d then Err(ReconstructionFailed)
        else Ok(Flatten(word.value[..d]))
  }

  /** A shard whose blob can be read, but is too short for its range or ranges beyond the total. */
  ghost predicate Invalid(blobs: Blobs, down: set<BackendId>, s: Shard, size: nat, total: nat) {
    && s.backend !in down && AddressOf(s) in blobs && s.first <= s.last
    && (s.last >= total || |blobs[AddressOf(s)]| < (s.last - s.first + 1) * size)
  }

  lemma {:induction false} GatherFailsIff(blobs: Blobs, down: set<BackendId>, shards: seq<Shard>, size: nat,
                                          slots: Slots)
    ensures var r := Gather(blobs, down, shards, size, slots); r.Err? ==> r.error == InvalidPayload
    ensures Gather(blobs, down, shards, size, slots).Err?
       <==> exists s :: s in shards && Invalid(blobs, down, s, size, |slots|)
    decreases |shards|
  {
    if shards != [] {
      var s, rest := shards[0], shards[1..];
      assert forall x :: x in shards <==> x == s || x in rest;
      var data := Read(blobs, down, AddressOf(s));
      if data.None? {
        GatherFailsIff(blobs, down, rest, size, slots);
      } else if PayloadFits(s, data.value, size, |slots|) {
        GatherFailsIff(blobs, down, rest, size, FillFrom(slots, s, data.value, size));
      } else {
        assert s in shards && Invalid(blobs, down, s, size, |slots|);
      }
    }
  }

  /** One readable blob that does not fit its range makes the whole call fail, whatever else can be read. */
  lemma InvalidPayloadIff(code: Code, blobs: Blobs, down: set<BackendId>, shards: seq<Shard>, size: nat, d: nat, p: nat)
    ensures Collect(code, blobs, down, shards, size, d, p) == Err(InvalidPayload)
       <==> exists s :: s in shards && Invalid(blobs, down, s, size, d + p)
  {
    GatherFailsIff(blobs, down, shards, size, Empty(d + p));
    assert |Empty(d + p)| == d + p;
  }

  // ---------------------------------------------------------------------
  // The loops
  // ---------------------------------------------------------------------

  /** The segments of the range before index i are in the payload and within the total. */
  predicate FitsUpTo(s: Shard, i: nat, len: nat, size: nat, total: nat) {
    s.first < i ==> i - 1 < total && (i - s.first) * size <= len
  }

  lemma FitsToTheEnd(s: Shard, i: nat, data: Bytes, size: nat, total: nat)
    ensures s.first <= i <= s.last && PayloadFits(s, data, size, total) ==> FitsUpTo(s, i + 1, |data|, size, total)
    ensures s.first <= s.last && FitsUpTo(s, s.last + 1, |data|, size, total) ==> PayloadFits(s, data, size, total)
  {
    if s.first <= i <= s.last {
      MulMonotone(size, i + 1 - s.first, s.last - s.first + 1);
    }
  }

  lemma FillStep(slots: Slots, lo: nat, hi: nat, data: Bytes, size: nat)
    requires lo <= hi < |slots|
    ensures var was := FillRange(slots, lo, hi, data, size);
            was[hi] == slots[hi] &&
            FillRange(slots, lo, hi + 1, data, size)
            == if was[hi].None? then was[hi := Some(Slice(data, size, hi - lo))] else was
  {
  }

  /** One round of the inner loop: copies segment i unless its slot is taken. */
  method FillSlot(filled: Slots, s: Shard, i: nat, data: Bytes, size: nat, ghost slots: Slots)
    returns (r: Option<Slots>, added: nat)
    requires s.first <= i && filled == FillRange(slots, s.first, i, data, size)
    requires FitsUpTo(s, i, |data|, size, |slots|)
    ensures r.Some? <==> FitsUpTo(s, i + 1, |data|, size, |slots|)
    ensures r.Some? ==> r.value == FillRange(slots, s.first, i + 1, data, size)
    ensures r.Some? ==> |Present(r.value)| == |Present(filled)| + added
  {
    var start := (i - s.first) * size;
    var end := start + size;
    MulAdd(i - s.first, 1, size);
    if end > |data| || i >= |filled| {
      return None, 0;
    }
    FillStep(slots, s.first, i, data, size);
    if filled[i].Some? {
      return Some(filled), 0;
    }
    PresentUpdate(filled, i, data[start..end]);
    return Some(filled[i := Some(data[start..end])]), 1;
  }

  method FillSlots(slots: Slots, s: Shard, data: Bytes, size: nat) returns (r: Option<Slots>, collected: nat)
    ensures r == if PayloadFits(s, data, size, |slots|) then Some(FillFrom(slots, s, data, size)) else None
    ensures r.Some? ==> |Present(r.value)| == |Present(slots)| + collected
  {
    var filled, i := slots, s.first;
    collected := 0;
    assert filled == FillRange(slots, s.first, i, data, size);
    while i <= s.last
      invariant s.first <= i <= Max(s.first, s.last + 1) && FitsUpTo(s, i, |data|, size, |slots|)
      invariant filled == FillRange(slots, s.first, i, data, size)
      invariant |Present(filled)| == |Present(slots)| + collected
      decreases s.last + 1 - i
    {
      FitsToTheEnd(s, i, data, size, |slots|);
      var next, added := FillSlot(filled, s, i, data, size, slots);
      if next.None? {
        return None, collected;
      }
      filled, collected, i := next.value, collected + added, i + 1;
    }
    FitsToTheEnd(s, i, data, size, |slots|);
    if s.last < s.first {
      assert filled == FillFrom(slots, s, data, size);
    }
    return Some(filled), collected;
  }

  lemma PresentUpdate(slots: Slots, i: nat, x: Bytes)
    requires i < |slots| && slots[i].None?
    ensures |Present(slots[i := Some(x)])| == |Present(slots)| + 1
  {
    assert Present(slots[i := Some(x)]) == Present(slots) + {i};
  }

  /** `CollectShards`, while the backends in `down` refuse all reads. */
  method CollectShards(store: BlobStore, code: Code, down: set<BackendId>, shards: seq<Shard>, size: nat, d: nat,
                       p: nat)
    returns (r: Result<Bytes, CollectError>)
    ensures r == Collect(code, store.blobs, down, shards, size, d, p)
  {
    var slots := Empty(d + p);
    var count := 0;
    assert Present(slots) == {};
    var i := 0;
    while i < |shards|
      invariant 0 <= i <= |shards| && |slots| == d + p && count == |Present(slots)|
      invariant Gather(store.blobs, down, shards, size, Empty(d + p))
             == Gather(store.blobs, down, shards[i..], size, slots)
    {
      assert shards[i..][1..] == shards[i + 1..];
      var data := store.GetShard(shards[i].backend, shards[i].location, down);
      if data.Some? {
        var filled, collected := FillSlots(slots, shards[i], data.value, size);
        if filled.None? {
          return Err(InvalidPayload);
        }
        slots, count := filled.value, count + collected;
      }
      i := i + 1;
    }
    if count < d {
      return Err(NotEnoughShards);
    }
    if !code.supports(d, p, size) {
      return Err(ReconstructionFailed);
    }
    var word := code.rebuild(slots, d, p);
    if word.None? || |word.value| < d {
      return Err(ReconstructionFailed);
    }
    var restored := JoinRows(word.value[..d]);
    return Ok(restored);
  }

  method JoinRows(rows: seq<Bytes>) returns (joined: Bytes)
    ensures joined == Flatten(rows)
  {
    joined := [];
    var i := 0;
    while i < |rows|
      invariant 0 <= i <= |rows| && joined == Flatten(rows[..i])
    {
      FlattenSnoc(rows[..i], rows[i]);
      assert rows[..i] + [rows[i]] == rows[..i + 1];
      joined := joined + rows[i];
      i := i + 1;
    }
    assert rows[..|rows|] == rows;
  }

  /** The blobs of all these shards can be deleted, one after the other. */
  ghost predicate Deletable(blobs: Blobs, refused: set<Address>, shards: seq<Shard>) {
    OneEach(shards) && Addresses(shards) <= blobs.Keys && Addresses(shards) !! refused
  }

  lemma DeletableSnoc(blobs: Blobs, refused: set<Address>, shards: seq<Shard>, x: Shard)
    ensures Deletable(blobs, refused, shards + [x])
       <==> Deletable(blobs, refused, shards) && AddressOf(x) in blobs.Keys - Addresses(shards)
            && AddressOf(x) !in refused
  {
    OneEachSnoc(shards, x);
  }

  /** The shards before the first one whose blob cannot be deleted. */
  ghost predicate StopsAt(blobs: Blobs, refused: set<Address>, shards: seq<Shard>, n: nat) {
    && n < |shards| && Deletable(blobs, refused, shards[..n]) && !Deletable(blobs, refused, shards[..n + 1])
  }

  /** What deleting the shards one after the other comes to: it is done with all of them exactly if all can be deleted,
      and otherwise stops at the first one that cannot. */
  ghost predicate Outcome(before: Blobs, after: Blobs, refused: set<Address>, shards: seq<Shard>, ok: bool, stop: nat) {
    && (ok <==> Deletable(before, refused, shards))
    && (if ok then stop == |shards| else StopsAt(before, refused, shards, stop))
    && after == before - Addresses(shards[..stop])
  }

  lemma {:induction false} PrefixDeletable(blobs: Blobs, refused: set<Address>, shards: seq<Shard>, n: nat)
    requires n <= |shards| && Deletable(blobs, refused, shards)
    ensures Deletable(blobs, refused, shards[..n])
    decreases |shards| - n
  {
    if n == |shards| {
      assert shards[..n] == shards;
    } else {
      PrefixDeletable(blobs, refused, shards, n + 1);
      assert shards[..n + 1] == shards[..n] + [shards[n]];
      DeletableSnoc(blobs, refused, shards[..n], shards[n]);
    }
  }

  lemma DestroyStep(before: Blobs, refused: set<Address>, shards: seq<Shard>, i: nat)
    requires i < |shards| && Deletable(before, refused, shards[..i])
    ensures Addresses(shards[..i + 1]) == Addresses(shards[..i]) + {AddressOf(shards[i])}
    ensures Deletable(before, refused, shards[..i + 1])
       <==> AddressOf(shards[i]) in before - Addresses(shards[..i]) && AddressOf(shards[i]) !in refused
    ensures !Deletable(before, refused, shards[..i + 1]) ==>
              !Deletable(before, refused, shards) && StopsAt(before, refused, shards, i)
  {
    AddressesTake(shards, i);
    assert shards[..i + 1] == shards[..i] + [shards[i]];
    DeletableSnoc(before, refused, shards[..i], shards[i]);
    if Deletable(before, refused, shards) {
      PrefixDeletable(before, refused, shards, i + 1);
    }
  }

  /** `DestroyShards`: deletes in order and stops at the first failure. It succeeds exactly if every blob is there, on
      an address of its own, and none is refused. */
  method DestroyShards(store: BlobStore, shards: seq<Shard>, refused: set<Address>)
    returns (ok: bool, ghost stop: nat)
    requires store.Valid()
    modifies store`blobs
    ensures store.Valid() && Outcome(old(store.blobs), store.blobs, refused, shards, ok, stop)
  {
    var i := 0;
    assert Addresses(shards[..0]) == {};
    while i < |shards|
      invariant 0 <= i <= |shards| && store.Valid()
      invariant Deletable(old(store.blobs), refused, shards[..i])
      invariant store.blobs == old(store.blobs) - Addresses(shards[..i])
    {
      DestroyStep(old(store.blobs), refused, shards, i);
      var deleted := store.DeleteShard(shards[i].backend, shards[i].location, refused);
      if !deleted {
        return false, i;
      }
      i := i + 1;
    }
    assert shards[..|shards|] == shards;
    return true, i;
  }
}
