/** `DeleteChunks`, and `cleanupChunks` after a failed stream. */
module Deleting {
  import opened Backends
  import opened Sharding
  import opened Collecting
  import opened Chunks
  import opened ObjectStore

  /** The shards of all chunks, one after the other. */
  function AllShards(chunks: seq<Chunk>): seq<Shard> {
    if chunks == [] then [] else AllShards(chunks[..|chunks| - 1]) + chunks[|chunks| - 1].shards
  }

  lemma AllShardsTake(chunks: seq<Chunk>, i: nat)
    requires i < |chunks|
    ensures AllShards(chunks[..i + 1]) == AllShards(chunks[..i]) + chunks[i].shards
  {
    assert chunks[..i + 1][..i] == chunks[..i];
  }

  lemma {:induction false} AllShardsPrefix(chunks: seq<Chunk>, i: nat)
    requires i <= |chunks|
    ensures AllShards(chunks[..i]) <= AllShards(chunks)
    decreases |chunks| - i
  {
    if i == |chunks| {
      assert chunks[..i] == chunks;
    } else {
      AllShardsTake(chunks, i);
      AllShardsPrefix(chunks, i + 1);
    }
  }

  lemma {:induction false} AllShardsRefs(chunks: seq<Chunk>)
    ensures Addresses(AllShards(chunks)) == AllRefs(chunks)
  {
    if chunks != [] {
      var k := |chunks| - 1;
      AllShardsRefs(chunks[..k]);
      AllRefsTake(chunks, k);
      assert chunks[..k + 1] == chunks;
    }
  }

  lemma AddressesAppend(a: seq<Shard>, b: seq<Shard>)
    ensures Addresses(a + b) == Addresses(a) + Addresses(b)
  {
  }

  lemma {:induction false} OneEachAppend(a: seq<Shard>, b: seq<Shard>)
    ensures OneEach(a + b) <==> OneEach(a) && OneEach(b) && Addresses(a) !! Addresses(b)
    decreases |b|
  {
    if b == [] {
      assert a + b == a;
    } else {
      var k := |b| - 1;
      assert b == b[..k] + [b[k]] && a + b == (a + b[..k]) + [b[k]];
      OneEachAppend(a, b[..k]);
      OneEachSnoc(a + b[..k], b[k]);
      OneEachSnoc(b[..k], b[k]);
      AddressesAppend(a, b[..k]);
    }
  }

  lemma DeletableAppend(blobs: Blobs, refused: set<Address>, a: seq<Shard>, b: seq<Shard>)
    ensures Deletable(blobs, refused, a + b)
       <==> Deletable(blobs, refused, a) && Deletable(blobs - Addresses(a), refused, b)
  {
    OneEachAppend(a, b);
    AddressesAppend(a, b);
  }

  lemma RemovedTwice(x: Blobs, a: set<Address>, b: set<Address>)
    ensures x - a - b == x - (a + b)
  {
  }

  lemma StopsLater(x: Blobs, refused: set<Address>, a: seq<Shard>, b: seq<Shard>, stop: nat)
    requires Deletable(x, refused, a) && StopsAt(x - Addresses(a), refused, b, stop)
    ensures StopsAt(x, refused, a + b, |a| + stop)
  {
    assert (a + b)[..|a| + stop] == a + b[..stop] && (a + b)[..|a| + stop + 1] == a + b[..stop + 1];
    DeletableAppend(x, refused, a, b[..stop]);
    DeletableAppend(x, refused, a, b[..stop + 1]);
  }

  /** All of `a` is deleted, and then `b`. */
  lemma OutcomeAppend(x: Blobs, y: Blobs, z: Blobs, refused: set<Address>, a: seq<Shard>, b: seq<Shard>, ok: bool,
                      stop: nat)
    requires Outcome(x, y, refused, a, true, |a|) && Outcome(y, z, refused, b, ok, stop)
    ensures Outcome(x, z, refused, a + b, ok, |a| + stop)
  {
    assert a[..|a|] == a && (a + b)[..|a| + stop] == a + b[..stop];
    DeletableAppend(x, refused, a, b);
    AddressesAppend(a, b[..stop]);
    RemovedTwice(x, Addresses(a), Addresses(b[..stop]));
    if !ok {
      StopsLater(x, refused, a, b, stop);
    }
  }

  /** What has stopped is not continued. */
  lemma OutcomeStops(x: Blobs, y: Blobs, refused: set<Address>, a: seq<Shard>, all: seq<Shard>, stop: nat)
    requires Outcome(x, y, refused, a, false, stop) && a <= all
    ensures Outcome(x, y, refused, all, false, stop)
  {
    assert all[..stop] == a[..stop] && all[..stop + 1] == a[..stop + 1];
    if Deletable(x, refused, all) {
      PrefixDeletable(x, refused, all, stop + 1);
    }
  }

  /** All of `a` is deleted, and then `b`, or not and nothing after it. */
  lemma OutcomeNext(x: Blobs, y: Blobs, z: Blobs, refused: set<Address>, a: seq<Shard>, b: seq<Shard>, all: seq<Shard>,
                    ok: bool, stop: nat)
    requires Outcome(x, y, refused, a, true, |a|) && Outcome(y, z, refused, b, ok, stop) && a + b <= all
    ensures ok ==> Outcome(x, z, refused, a + b, true, |a + b|)
    ensures !ok ==> Outcome(x, z, refused, all, false, |a| + stop)
  {
    OutcomeAppend(x, y, z, refused, a, b, ok, stop);
    if !ok {
      OutcomeStops(x, z, refused, a + b, all, |a| + stop);
    }
  }

  lemma OutcomeOfChunk(x: Blobs, y: Blobs, z: Blobs, refused: set<Address>, chunks: seq<Chunk>, i: nat, ok: bool,
                       stop: nat)
    requires i < |chunks| && Outcome(x, y, refused, AllShards(chunks[..i]), true, |AllShards(chunks[..i])|)
    requires Outcome(y, z, refused, chunks[i].shards, ok, stop)
    ensures var next := AllShards(chunks[..i + 1]); ok ==> Outcome(x, z, refused, next, true, |next|)
    ensures !ok ==> Outcome(x, z, refused, AllShards(chunks), false, |AllShards(chunks[..i])| + stop)
  {
    AllShardsTake(chunks, i);
    AllShardsPrefix(chunks, i + 1);
    OutcomeNext(x, y, z, refused, AllShards(chunks[..i]), chunks[i].shards, AllShards(chunks), ok, stop);
  }

  lemma NothingDeleted(x: Blobs, refused: set<Address>)
    ensures Outcome(x, x, refused, [], true, 0)
  {
  }

  /** `DeleteChunks`: stops at the first blob of the first chunk that cannot be deleted. It succeeds exactly if every
      blob is there, on an address of its own, and no delete is refused. */
  method DeleteChunks(store: BlobStore, chunks: seq<Chunk>, refused: set<Address>) returns (ok: bool, ghost stop: nat)
    requires store.Valid()
    modifies store`blobs
    ensures store.Valid() && Outcome(old(store.blobs), store.blobs, refused, AllShards(chunks), ok, stop)
  {
    var i := 0;
    NothingDeleted(store.blobs, refused);
    while i < |chunks|
      invariant 0 <= i <= |chunks| && store.Valid()
      invariant var before := AllShards(chunks[..i]);
                Outcome(old(store.blobs), store.blobs, refused, before, true, |before|)
    {
      ghost var blobs := store.blobs;
      var deleted, n := DestroyShards(store, chunks[i].shards, refused);
      OutcomeOfChunk(old(store.blobs), blobs, store.blobs, refused, chunks, i, deleted, n);
      if !deleted {
        return false, |AllShards(chunks[..i])| + n;
      }
      i := i + 1;
    }
    assert chunks[..|chunks|] == chunks;
    return true, |AllShards(chunks)|;
  }

  lemma AllRefsTake(chunks: seq<Chunk>, i: nat)
    requires i < |chunks|
    ensures AllRefs(chunks[..i + 1]) == AllRefs(chunks[..i]) + Refs(chunks[i])
    ensures AllRefs(chunks[..i + 1]) <= AllRefs(chunks)
  {
    assert chunks[..i + 1] == chunks[..i] + [chunks[i]];
    AllRefsAppend(chunks[..i], [chunks[i]]);
    assert AllRefs([chunks[i]]) == Refs(chunks[i]) + AllRefs([]);
    assert chunks == chunks[..i + 1] + chunks[i + 1..];
    AllRefsAppend(chunks[..i + 1], chunks[i + 1..]);
  }

  /** No other chunk of the list is on one of its blobs. */
  ghost predicate ApartFromOthers(chunks: seq<Chunk>, i: nat)
    requires i < |chunks|
  {
    forall j :: 0 <= j < |chunks| && j != i ==> Refs(chunks[j]) !! Refs(chunks[i])
  }

  /** Every blob of the chunk can be deleted, whatever becomes of the others. */
  ghost predicate Removable(blobs: Blobs, refused: set<Address>, chunks: seq<Chunk>, i: nat)
    requires i < |chunks|
  {
    ApartFromOthers(chunks, i) && Deletable(blobs, refused, chunks[i].shards)
  }

  lemma {:induction false} ApartFromEarlier(chunks: seq<Chunk>, i: nat, k: nat)
    requires k <= i < |chunks| && ApartFromOthers(chunks, i)
    ensures AllRefs(chunks[..k]) !! Refs(chunks[i])
    decreases k
  {
    if k > 0 {
      ApartFromEarlier(chunks, i, k - 1);
      AllRefsTake(chunks, k - 1);
    }
  }

  /** The blobs of a removable chunk are still there when its turn comes. */
  lemma StillRemovable(before: Blobs, now: Blobs, refused: set<Address>, chunks: seq<Chunk>, i: nat)
    requires i < |chunks| && Removable(before, refused, chunks, i)
    requires OnlyRemoved(before, now, AllRefs(chunks[..i]))
    ensures Deletable(now, refused, chunks[i].shards)
  {
    ApartFromEarlier(chunks, i, i);
  }

  /** The chunk has no blob left, if all of them could be deleted. */
  ghost predicate Handled(before: Blobs, now: Blobs, refused: set<Address>, chunks: seq<Chunk>, i: nat)
    requires i < |chunks|
  {
    Removable(before, refused, chunks, i) ==> Refs(chunks[i]) !! now.Keys
  }

  lemma HandledNext(before: Blobs, x: Blobs, y: Blobs, refused: set<Address>, chunks: seq<Chunk>, i: nat, ok: bool,
                    stop: nat)
    requires i < |chunks| && OnlyRemoved(before, x, AllRefs(chunks[..i]))
    requires Outcome(x, y, refused, chunks[i].shards, ok, stop)
    ensures OnlyRemoved(before, y, AllRefs(chunks[..i + 1])) && y.Keys <= x.Keys
    ensures Handled(before, y, refused, chunks, i)
  {
    AllRefsTake(chunks, i);
    AddressesPrefix(chunks[i].shards, stop);
    if Removable(before, refused, chunks, i) {
      StillRemovable(before, x, refused, chunks, i);
    }
  }

  /** `cleanupChunks`: tries every chunk, whatever happens to the others. A chunk all of whose deletes are accepted has
      no blob left, and if that goes for every chunk, exactly their blobs are gone. */
  method CleanUp(store: BlobStore, chunks: seq<Chunk>, refused: set<Address>)
    requires store.Valid()
    modifies store`blobs
    ensures store.Valid() && OnlyRemoved(old(store.blobs), store.blobs, AllRefs(chunks))
    ensures forall i :: 0 <= i < |chunks| && Removable(old(store.blobs), refused, chunks, i) ==>
              Refs(chunks[i]) !! store.blobs.Keys
    ensures (forall i :: 0 <= i < |chunks| ==> Removable(old(store.blobs), refused, chunks, i)) ==>
              store.blobs == old(store.blobs) - AllRefs(chunks)
  {
    var i := 0;
    while i < |chunks|
      invariant 0 <= i <= |chunks| && store.Valid()
      invariant OnlyRemoved(old(store.blobs), store.blobs, AllRefs(chunks[..i]))
      invariant forall j {:trigger Handled(old(store.blobs), store.blobs, refused, chunks, j)} :: 0 <= j < i ==>
                  Handled(old(store.blobs), store.blobs, refused, chunks, j)
    {
      ghost var x := store.blobs;
      var ok, n := DestroyShards(store, chunks[i].shards, refused);
      HandledNext(old(store.blobs), x, store.blobs, refused, chunks, i, ok, n);
      forall j | 0 <= j < i
        ensures Handled(old(store.blobs), store.blobs, refused, chunks, j)
      {
        assert Handled(old(store.blobs), x, refused, chunks, j);
      }
      i := i + 1;
    }
    assert chunks[..|chunks|] == chunks;
    CleanUpEnds(old(store.blobs), store.blobs, refused, chunks);
  }

  lemma CleanUpEnds(before: Blobs, after: Blobs, refused: set<Address>, chunks: seq<Chunk>)
    requires OnlyRemoved(before, after, AllRefs(chunks))
    requires forall j {:trigger Handled(before, after, refused, chunks, j)} :: 0 <= j < |chunks| ==>
               Handled(before, after, refused, chunks, j)
    ensures forall i :: 0 <= i < |chunks| && Removable(before, refused, chunks, i) ==>
              Refs(chunks[i]) !! after.Keys
    ensures (forall i :: 0 <= i < |chunks| ==> Removable(before, refused, chunks, i)) ==>
              after == before - AllRefs(chunks)
  {
    forall i | 0 <= i < |chunks| && Removable(before, refused, chunks, i)
      ensures Refs(chunks[i]) !! after.Keys
    {
      assert Handled(before, after, refused, chunks, i);
    }
    if forall i :: 0 <= i < |chunks| ==> Removable(before, refused, chunks, i) {
      AllGone(after, chunks);
    }
  }

  lemma AddressesPrefix(shards: seq<Shard>, n: nat)
    requires n <= |shards|
    ensures Addresses(shards[..n]) <= Addresses(shards) && (n == |shards| ==> shards[..n] == shards)
  {
  }

  lemma {:induction false} AllGone(blobs: Blobs, chunks: seq<Chunk>)
    requires forall i :: 0 <= i < |chunks| ==> Refs(chunks[i]) !! blobs.Keys
    ensures AllRefs(chunks) !! blobs.Keys
  {
    if chunks != [] {
      AllGone(blobs, chunks[1..]);
    }
  }
}
