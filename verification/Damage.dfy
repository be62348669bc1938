/** Deletes that give up: what they may destroy, and what they leave alone. */
module Damage {
  import opened Base
  import opened Layout
  import opened Backends
  import opened Sharding
  import opened Chunks
  import opened Schema
  import opened Representation
  import opened ObjectStore
  import opened Refinement
  import opened Promises
  import opened Examples
  import FaultTolerance
  import Pipeline
  import PipelineResults

  /** Without any of its blobs, a chunk cannot be read. */
  lemma NothingReadable(blobs: Blobs, down: set<BackendId>, c: Chunk)
    requires WellFormed(c) && Refs(c) !! blobs.Keys
    ensures !Enough(blobs, down, c)
  {
    assert forall x :: x in c.shards ==> AddressOf(x) in Refs(c);
    assert FaultTolerance.Readable(blobs, down, c.shards, c.dataCount + c.parityCount) == {};
  }

  lemma HasBlobs(c: Chunk)
    requires WellFormed(c)
    ensures Refs(c) != {}
  {
    assert c.shards != [];
    assert c.shards[0] in c.shards;
    assert AddressOf(c.shards[0]) in Refs(c);
  }

  lemma FirstChunk(env: Env, s: Store, full: Blobs, lists: Lists, spec: Spec, k: ObjectKey)
    requires Related(env, s, full, lists, spec) && k in spec.objects && spec.objects[k].data != []
    ensures var chunks := ChunksOf(s.tables, OfObject(k));
            chunks != [] && WellFormed(chunks[0]) && Refs(chunks[0]) <= RefsOf(s, k) && RefsOf(s, k) != {}
  {
    ListedHeld(env, s, full, lists, spec, k);
    var chunks := lists[OfObject(k)].chunks;
    assert chunks != [];
    assert ListOk(s.tables, lists, OfObject(k));
    assert WellFormed(lists[OfObject(k)].chunks[0]);
    RefsAreAmong(chunks, 0);
    HasBlobs(chunks[0]);
  }

  /** No blob of the object's first chunk is there. */
  ghost predicate FirstGone(s: Store, k: ObjectKey) {
    var chunks := ChunksOf(s.tables, OfObject(k));
    chunks != [] && WellFormed(chunks[0]) && Refs(chunks[0]) !! s.blobs.Keys
  }

  /** A delete that gives up after removing every blob: the key stays listed, cannot be read whichever backends
      are up, and cannot be deleted any more. */
  ghost predicate Lost(env: Env, s: Store, k: ObjectKey) {
    && k in s.tables.objects && !Enabled(env, s, Delete(k)) && FirstGone(s, k)
    && forall down {:trigger ReadObject(env, s, down, k)} :: ReadObject(env, s, down, k) == None
  }

  lemma Unreadable(env: Env, s: Store, full: Blobs, lists: Lists, spec: Spec, k: ObjectKey, chunks: seq<Chunk>,
                   down: set<BackendId>)
    requires Related(env, s, full, lists, spec) && chunks == ChunksOf(s.tables, OfObject(k))
    requires chunks != [] && WellFormed(chunks[0]) && Refs(chunks[0]) !! s.blobs.Keys
    ensures ReadObject(env, s, down, k) == None
  {
    RelatedReads(env, s, full, lists, spec, down, k);
    NothingReadable(s.blobs, down, chunks[0]);
    assert !Available(s, down, k);
  }

  lemma AlwaysUnreadable(env: Env, s: Store, full: Blobs, lists: Lists, spec: Spec, k: ObjectKey, chunks: seq<Chunk>)
    requires Related(env, s, full, lists, spec) && chunks == ChunksOf(s.tables, OfObject(k))
    requires chunks != [] && WellFormed(chunks[0]) && Refs(chunks[0]) !! s.blobs.Keys
    ensures forall down {:trigger ReadObject(env, s, down, k)} :: ReadObject(env, s, down, k) == None
  {
    forall down: set<BackendId>
      ensures ReadObject(env, s, down, k) == None
    {
      Unreadable(env, s, full, lists, spec, k, chunks, down);
    }
  }

  /** After every blob was removed. */
  lemma AfterRemoval(env: Env, s: Store, full: Blobs, lists: Lists, spec: Spec, k: ObjectKey, chunks: seq<Chunk>,
                     step: Step, t: Store)
    requires Related(env, s, full, lists, spec) && step == DeleteFails(k, s.blobs - RefsOf(s, k))
    requires t == Apply(env, s, step)
    requires chunks == ChunksOf(s.tables, OfObject(k)) && chunks != [] && WellFormed(chunks[0])
    requires Refs(chunks[0]) <= RefsOf(s, k)
    ensures forall down {:trigger ReadObject(env, t, down, k)} :: ReadObject(env, t, down, k) == None
  {
    DeleteFailsRelated(env, s, full, lists, spec, step);
    AlwaysUnreadable(env, t, full, lists, SpecAfter(env, s, spec, step), k, chunks);
  }

  lemma GaveUpState(env: Env, s: Store, k: ObjectKey, after: Blobs)
    ensures var t := Apply(env, s, DeleteFails(k, after)); t.tables == s.tables && t.blobs == after
  {
  }

  lemma NotDeletable(env: Env, s: Store, k: ObjectKey, t: Store)
    requires t.tables == s.tables && t.blobs == s.blobs - RefsOf(s, k) && RefsOf(s, k) != {}
    ensures !Enabled(env, t, Delete(k))
  {
    SameRefs(s, t, k);
    StillMissing(s.blobs, RefsOf(s, k));
  }

  lemma StillMissing(blobs: Blobs, refs: set<Address>)
    requires refs != {}
    ensures !(refs <= (blobs - refs).Keys)
  {
    var a :| a in refs;
  }

  lemma LostAfter(env: Env, s: Store, full: Blobs, lists: Lists, spec: Spec, k: ObjectKey)
    requires Related(env, s, full, lists, spec) && k in spec.objects && spec.objects[k].data != []
    ensures var step := DeleteFails(k, s.blobs - RefsOf(s, k));
            Enabled(env, s, step) && Lost(env, Apply(env, s, step), k)
  {
    var step := DeleteFails(k, s.blobs - RefsOf(s, k));
    FirstChunk(env, s, full, lists, spec, k);
    AfterRemoval(env, s, full, lists, spec, k, ChunksOf(s.tables, OfObject(k)), step, Apply(env, s, step));
    GaveUpState(env, s, k, step.after);
    NotDeletable(env, s, k, Apply(env, s, step));
    assert ChunksOf(Apply(env, s, step).tables, OfObject(k)) == ChunksOf(s.tables, OfObject(k));
  }

  /** In every reachable state, every stored object that is not empty can be lost that way. */
  lemma GivingUpMayLose(env: Env, steps: seq<Step>, k: ObjectKey)
    requires Legal(env, NO_STORE, steps)
    requires var spec := Promised(env, NO_STORE, NO_SPEC, steps); k in spec.objects && spec.objects[k].data != []
    ensures var s := Final(env, NO_STORE, steps);
            var step := DeleteFails(k, s.blobs - RefsOf(s, k));
            Enabled(env, s, step) && Lost(env, Apply(env, s, step), k)
  {
    var full, lists := ReachableRelated(env, steps);
    LostAfter(env, Final(env, NO_STORE, steps), full, lists, Promised(env, NO_STORE, NO_SPEC, steps), k);
  }

  /** After a delete that gave up, another one can succeed exactly if no blob of the object is missing: none was
      before, and the first one removed nothing. */
  lemma RetryNeedsEveryBlob(env: Env, s: Store, k: ObjectKey, after: Blobs)
    requires Enabled(env, s, DeleteFails(k, after))
    ensures Enabled(env, Apply(env, s, DeleteFails(k, after)), Delete(k))
            <==> RefsOf(s, k) <= s.blobs.Keys && after == s.blobs
  {
    SameRefs(s, Apply(env, s, DeleteFails(k, after)), k);
    NothingRemoved(s.blobs, after, RefsOf(s, k));
  }

  lemma SameRefs(s: Store, t: Store, k: ObjectKey)
    requires t.tables == s.tables
    ensures RefsOf(t, k) == RefsOf(s, k)
  {
  }

  lemma NothingRemoved(before: Blobs, after: Blobs, gone: set<Address>)
    requires OnlyRemoved(before, after, gone)
    ensures gone <= after.Keys <==> gone <= before.Keys && after == before
  {
    if gone <= after.Keys {
      assert after.Keys == before.Keys;
    }
  }

  // ---------------------------------------------------------------------
  // One such input
  // ---------------------------------------------------------------------

  /** A concrete run for any data: it is put and reads back, then a delete gives up and the object is lost. */
  lemma SomeObjectIsLost(digest: Bytes -> nat, k: ObjectKey, data: Bytes) returns (run: seq<Step>, delete: Step)
    requires 0 < |data| <= MAX_INT
    ensures var env := Env(ExampleSystem(), digest);
            && Legal(env, NO_STORE, run) && ReadObject(env, Final(env, NO_STORE, run), {}, k) == Some(data)
            && PromisedObject(Promised(env, NO_STORE, NO_SPEC, run), k) == Some(data)
            && Enabled(env, Final(env, NO_STORE, run), delete) && delete.DeleteFails?
            && Lost(env, Apply(env, Final(env, NO_STORE, run), delete), k)
  {
    var env := Env(ExampleSystem(), digest);
    var steps := ExampleStream(data);
    var job := ExampleJob(data);
    var end := Pipeline.Final(job, Pipeline.Init(job, map[]), steps);
    var chunks, blobs := PipelineResults.Result(end), end.disk.blobs;
    run := ExampleRun(k, data, chunks, blobs);
    ExamplePut(digest, k, data, chunks, blobs, blobs.Keys);
    ExampleIsLegal(digest, k, data, chunks, blobs);
    ReadsArePromised(env, run, {}, k);
    GivingUpMayLose(env, run, k);
    var s := Final(env, NO_STORE, run);
    delete := DeleteFails(k, s.blobs - RefsOf(s, k));
  }
}
