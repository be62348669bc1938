/** What clients can rely on, over every run of the store. */
module Promises {
  import opened Base
  import opened Layout
  import opened Backends
  import opened Chunks
  import opened Schema
  import opened Representation
  import opened Metadata
  import opened Multipart
  import opened ObjectStore
  import opened Refinement

  // ---------------------------------------------------------------------
  // Reading
  // ---------------------------------------------------------------------

  /** GetObject and the chunk collector: the whole object, while the backends in `down` refuse all reads. */
  ghost function ReadObject(env: Env, s: Store, down: set<BackendId>, k: ObjectKey): Option<Bytes> {
    if k !in s.tables.objects then None
    else ReadChunks(env.sys, s.blobs, down, ChunksOf(s.tables, OfObject(k)), s.tables.objects[k].compression.kind)
  }

  ghost function PromisedObject(spec: Spec, k: ObjectKey): Option<Bytes> {
    if k in spec.objects then Some(spec.objects[k].data) else None
  }

  /** Of every chunk of the object, enough segments can be read. */
  ghost predicate Available(s: Store, down: set<BackendId>, k: ObjectKey) {
    AllEnough(s.blobs, down, ChunksOf(s.tables, OfObject(k)))
  }

  /** The key reads as promised if enough of every chunk can be read and not at all otherwise, and its row has
      the promised contents' size and checksum. */
  ghost predicate Delivers(env: Env, s: Store, spec: Spec, down: set<BackendId>, k: ObjectKey) {
    && ReadObject(env, s, down, k) == (if Available(s, down, k) then PromisedObject(spec, k) else None)
    && (k in s.tables.objects <==> k in spec.objects)
    && (k in s.tables.objects ==>
          s.tables.objects[k].size == |spec.objects[k].data| && s.tables.objects[k].etag == spec.objects[k].etag)
  }

  lemma ListedHeld(env: Env, s: Store, full: Blobs, lists: Lists, spec: Spec, k: ObjectKey)
    requires Related(env, s, full, lists, spec) && k in spec.objects
    ensures k in s.tables.objects && ObjectOk(s.tables.objects[k], spec.objects[k])
    ensures OfObject(k) in lists && ChunksOf(s.tables, OfObject(k)) == lists[OfObject(k)].chunks
    ensures Intact(env.sys, full, lists[OfObject(k)].chunks, spec.objects[k].data)
  {
    assert ObjectOk(s.tables.objects[k], spec.objects[k]);
    RefsOfList(env, s, full, lists, spec, k);
    assert DataOk(env.sys, full, lists[OfObject(k)], Content(spec, OfObject(k)));
  }

  lemma RelatedReads(env: Env, s: Store, full: Blobs, lists: Lists, spec: Spec, down: set<BackendId>, k: ObjectKey)
    requires Related(env, s, full, lists, spec)
    ensures Delivers(env, s, spec, down, k)
  {
    if k in spec.objects {
      ListedHeld(env, s, full, lists, spec, k);
      HeldReads(env.sys, full, s.blobs, down, lists[OfObject(k)].chunks, spec.objects[k].data);
    }
  }

  lemma RelatedAvailable(env: Env, s: Store, full: Blobs, lists: Lists, spec: Spec, down: set<BackendId>, k: ObjectKey)
    requires Related(env, s, full, lists, spec) && k in spec.objects && k !in spec.damaged
    requires |down| <= Max(0, env.sys.tolerance)
    ensures Available(s, down, k)
  {
    ListedHeld(env, s, full, lists, spec, k);
    assert AllThere(s.blobs, lists[OfObject(k)]);
    IntactIsEnough(env.sys, full, s.blobs, down, lists[OfObject(k)].chunks, spec.objects[k].data);
  }

  /** After every run, whichever backends are down and however many: a key that reads at all reads as
      promised, and it reads exactly when enough segments of each of its chunks can be read. */
  lemma ReadsNeverLie(env: Env, steps: seq<Step>, down: set<BackendId>, k: ObjectKey)
    requires Legal(env, NO_STORE, steps)
    ensures Delivers(env, Final(env, NO_STORE, steps), Promised(env, NO_STORE, NO_SPEC, steps), down, k)
  {
    var full, lists := ReachableRelated(env, steps);
    RelatedReads(env, Final(env, NO_STORE, steps), full, lists, Promised(env, NO_STORE, NO_SPEC, steps), down, k);
  }

  lemma RelatedPromise(env: Env, s: Store, full: Blobs, lists: Lists, spec: Spec, down: set<BackendId>, k: ObjectKey)
    requires Related(env, s, full, lists, spec) && k !in spec.damaged && |down| <= Max(0, env.sys.tolerance)
    ensures ReadObject(env, s, down, k) == PromisedObject(spec, k)
  {
    RelatedReads(env, s, full, lists, spec, down, k);
    if k in spec.objects {
      RelatedAvailable(env, s, full, lists, spec, down, k);
    }
  }

  /** After every run, with any tolerated set of backends down, every key reads as promised, unless a delete of
      it gave up after the key was last written. */
  lemma ReadsArePromised(env: Env, steps: seq<Step>, down: set<BackendId>, k: ObjectKey)
    requires Legal(env, NO_STORE, steps) && |down| <= Max(0, env.sys.tolerance)
    requires k !in Promised(env, NO_STORE, NO_SPEC, steps).damaged
    ensures ReadObject(env, Final(env, NO_STORE, steps), down, k)
         == PromisedObject(Promised(env, NO_STORE, NO_SPEC, steps), k)
  {
    var full, lists := ReachableRelated(env, steps);
    RelatedPromise(env, Final(env, NO_STORE, steps), full, lists, Promised(env, NO_STORE, NO_SPEC, steps), down, k);
  }

  // ---------------------------------------------------------------------
  // Single operations, in any reachable state
  // ---------------------------------------------------------------------

  lemma UploadAgrees(s: Store, full: Blobs, added: Blobs, refs: set<Address>)
    requires full.Keys <= s.used && refs <= full.Keys && added.Keys !! s.used
    ensures Agree(s.blobs, s.blobs + added, refs)
  {
  }

  lemma RemovalAgrees(blobs: Blobs, after: Blobs, gone: set<Address>, refs: set<Address>)
    requires OnlyRemoved(blobs, after, gone) && gone !! refs
    ensures Agree(blobs, after, refs)
  {
  }

  /** What a delete removes belongs to no other object. */
  lemma RefsApart(env: Env, s: Store, full: Blobs, lists: Lists, spec: Spec, k: ObjectKey, x: ObjectKey)
    requires Related(env, s, full, lists, spec) && OfObject(k) in lists && k != x
    ensures RefsOf(s, x) !! AllRefs(lists[OfObject(k)].chunks)
  {
    if x in s.tables.objects {
      RefsOfList(env, s, full, lists, spec, x);
      assert Separate(lists[OfObject(k)], lists[OfObject(x)]);
    }
  }

  /** The step leaves the blobs of a listed object it does not name as they are, missing ones included. */
  lemma BlobsAgree(env: Env, s: Store, full: Blobs, lists: Lists, spec: Spec, step: Step, k: ObjectKey)
    requires Related(env, s, full, lists, spec) && Enabled(env, s, step) && OfObject(k) in lists
    requires step.Delete? || step.DeleteFails? ==> step.k != k
    ensures Agree(s.blobs, BlobsAfter(s, step), AllRefs(lists[OfObject(k)].chunks))
  {
    var refs := AllRefs(lists[OfObject(k)].chunks);
    match step
    case Upload(added, _) =>
      StoredBefore(env, s, full, lists, spec, k);
      UploadAgrees(s, full, added, refs);
    case Discard(gone) => UnlistedApart(s.tables, lists, gone, OfObject(k));
    case Delete(x) => DeleteAgrees(env, s, full, lists, spec, k, x, s.blobs - RefsOf(s, x));
    case DeleteFails(x, after) => DeleteAgrees(env, s, full, lists, spec, k, x, after);
    case _ =>
  }

  lemma DeleteAgrees(env: Env, s: Store, full: Blobs, lists: Lists, spec: Spec, k: ObjectKey, x: ObjectKey,
                     after: Blobs)
    requires Related(env, s, full, lists, spec) && OfObject(k) in lists && x != k
    requires OnlyRemoved(s.blobs, after, RefsOf(s, x))
    ensures Agree(s.blobs, after, AllRefs(lists[OfObject(k)].chunks))
  {
    RefsApart(env, s, full, lists, spec, k, x);
    RemovalAgrees(s.blobs, after, RefsOf(s, x), AllRefs(lists[OfObject(k)].chunks));
  }

  lemma StoredBefore(env: Env, s: Store, full: Blobs, lists: Lists, spec: Spec, k: ObjectKey)
    requires Related(env, s, full, lists, spec) && OfObject(k) in lists
    ensures AllRefs(lists[OfObject(k)].chunks) <= full.Keys && Keeps(s.blobs, full) && full.Keys <= s.used
  {
    assert DataOk(env.sys, full, lists[OfObject(k)], Content(spec, OfObject(k)));
  }

  /** A delete of a listed object does not fail in the metadata. */
  lemma DeleteNames(env: Env, s: Store, lists: Lists, step: Step, k: ObjectKey)
    requires Metadata.Owned(s.tables, lists) && OfObject(k) in lists && (step.Delete? || step.DeleteFails?)
    requires !Touches(s, step, k) || (!Succeeds(env, s, step) && !step.DeleteFails?)
    ensures step.k != k
  {
    assert OwnerExists(s.tables, OfObject(k));
  }

  lemma UntouchedSpec(env: Env, s: Store, spec: Spec, step: Step, k: ObjectKey)
    requires RowsMatch(env.digest, s.tables, spec)
    requires !Touches(s, step, k) || (!Succeeds(env, s, step) && !step.DeleteFails?)
    ensures PromisedObject(SpecAfter(env, s, spec, step), k) == PromisedObject(spec, k)
  {
    if step.Complete? && step.id in spec.uploads {
      assert UploadOk(s.tables.uploads[step.id], spec.uploads[step.id]);
    }
  }

  lemma UntouchedReads(env: Env, s: Store, full: Blobs, lists: Lists, spec: Spec, step: Step, down: set<BackendId>,
                       k: ObjectKey)
    requires Related(env, s, full, lists, spec) && Enabled(env, s, step)
    requires !Touches(s, step, k) || (!Succeeds(env, s, step) && !step.DeleteFails?)
    ensures ReadObject(env, Apply(env, s, step), down, k) == ReadObject(env, s, down, k)
  {
    var t, after := Apply(env, s, step), SpecAfter(env, s, spec, step);
    var next := StepRelated(env, s, full, lists, spec, step);
    UntouchedSpec(env, s, spec, step, k);
    RelatedReads(env, s, full, lists, spec, down, k);
    RelatedReads(env, t, FullAfter(full, step), next, after, down, k);
    if k in spec.objects {
      ListedHeld(env, s, full, lists, spec, k);
      ListedHeld(env, t, FullAfter(full, step), next, after, k);
      assert next[OfObject(k)] == lists[OfObject(k)];
      if step.Delete? || step.DeleteFails? {
        DeleteNames(env, s, lists, step, k);
      }
      BlobsAgree(env, s, full, lists, spec, step, k);
      ReadFrame(env.sys, s.blobs, t.blobs, down, lists[OfObject(k)].chunks);
    }
  }

  /** A step changes what reads as what only for the keys it names, and only if it commits or is a delete that
      gave up. In particular what streams upload and clean up, opening or aborting an upload, storing a part, and
      puts and completions that do not commit change nothing readable. Whichever backends are down. */
  lemma OthersReadTheSame(env: Env, steps: seq<Step>, step: Step, down: set<BackendId>, k: ObjectKey)
    requires Legal(env, NO_STORE, steps) && Enabled(env, Final(env, NO_STORE, steps), step)
    requires var s := Final(env, NO_STORE, steps);
             !Touches(s, step, k) || (!Succeeds(env, s, step) && !step.DeleteFails?)
    ensures var s := Final(env, NO_STORE, steps);
            ReadObject(env, Apply(env, s, step), down, k) == ReadObject(env, s, down, k)
  {
    var full, lists := ReachableRelated(env, steps);
    var s, spec := Final(env, NO_STORE, steps), Promised(env, NO_STORE, NO_SPEC, steps);
    UntouchedReads(env, s, full, lists, spec, step, down, k);
  }

  /** What a named key reads as after an operation that has committed. */
  ghost function Outcome(env: Env, spec: Spec, step: Step): Option<Bytes> {
    match step
    case Put(_, data, _, _) => Some(data)
    case Complete(id) => Some(Assembled(env.digest, spec.parts, id).data)
    case _ => None
  }

  lemma TouchedSpec(env: Env, s: Store, spec: Spec, step: Step, k: ObjectKey)
    requires RowsMatch(env.digest, s.tables, spec) && Succeeds(env, s, step) && Touches(s, step, k)
    ensures var after := SpecAfter(env, s, spec, step);
            k !in after.damaged && PromisedObject(after, k) == Outcome(env, spec, step)
  {
    if step.Complete? {
      assert UploadOk(s.tables.uploads[step.id], spec.uploads[step.id]);
    }
  }

  /** An operation that commits makes the keys it names read as it says. So a put or a completion repairs an
      object that a delete has damaged. */
  lemma TouchedReadsAs(env: Env, steps: seq<Step>, step: Step, down: set<BackendId>, k: ObjectKey)
    requires Legal(env, NO_STORE, steps) && |down| <= Max(0, env.sys.tolerance)
    requires var s := Final(env, NO_STORE, steps);
             Enabled(env, s, step) && Succeeds(env, s, step) && Touches(s, step, k)
    ensures var s, spec := Final(env, NO_STORE, steps), Promised(env, NO_STORE, NO_SPEC, steps);
            ReadObject(env, Apply(env, s, step), down, k) == Outcome(env, spec, step)
  {
    var s, spec := Final(env, NO_STORE, steps), Promised(env, NO_STORE, NO_SPEC, steps);
    var full, lists := ReachableRelated(env, steps);
    var next := StepRelated(env, s, full, lists, spec, step);
    TouchedSpec(env, s, spec, step, k);
    RelatedPromise(env, Apply(env, s, step), FullAfter(full, step), next, SpecAfter(env, s, spec, step), down, k);
  }

  lemma AssembledWhole(digest: Bytes -> nat, parts: map<PartKey, Bytes>, id: UploadId, q: seq<PartKey>)
    requires Admitted(parts.Keys, id) && AllInOrder(q, parts.Keys, id)
    ensures Assembled(digest, parts, id).data == JoinParts(parts, q)
  {
    AllAreTaken(parts.Keys, id, q);
  }

  /** A completed upload reads as the contents of all its parts, in ascending order of part number, if their numbers
      are those that the HTTP layer admits. */
  lemma CompletionsReadWhole(env: Env, steps: seq<Step>, id: UploadId, q: seq<PartKey>, down: set<BackendId>)
    requires Legal(env, NO_STORE, steps) && |down| <= Max(0, env.sys.tolerance)
    requires var spec := Promised(env, NO_STORE, NO_SPEC, steps);
             id in spec.uploads && Admitted(spec.parts.Keys, id) && AllInOrder(q, spec.parts.Keys, id) && q != []
    ensures var s, spec := Final(env, NO_STORE, steps), Promised(env, NO_STORE, NO_SPEC, steps);
            ReadObject(env, Apply(env, s, Complete(id)), down, spec.uploads[id]) == Some(JoinParts(spec.parts, q))
  {
    var s, spec := Final(env, NO_STORE, steps), Promised(env, NO_STORE, NO_SPEC, steps);
    var full, lists := ReachableRelated(env, steps);
    assert UploadOk(s.tables.uploads[id], spec.uploads[id]);
    assert q[0] in q;
    CompletesIff(env, s, full, lists, spec, id);
    TouchedReadsAs(env, steps, Complete(id), down, spec.uploads[id]);
    AssembledWhole(env.digest, spec.parts, id, q);
  }

  /** When an operation succeeds, in terms of what clients know. A write also needs new chunk ids and known keys. */
  ghost predicate Accepted(s: Store, spec: Spec, step: Step) {
    match step
    case Put(k, _, _, chunks) => Storable(DeleteChunksOf(s.tables, OfObject(k)), chunks)
    case UploadPart(p, _, chunks) => p.upload in spec.uploads && Storable(DeleteChunksOf(s.tables, OfPart(p)), chunks)
    case Create(id, _, _) => id !in spec.uploads
    case Complete(id) => id in spec.uploads && exists p :: p in spec.parts && p.upload == id && p.number >= 1
    case Abort(id) => id in spec.uploads
    case Delete(k) => k in spec.objects
    case CreateBucket(bucket) => bucket !in spec.buckets
    case DeleteBucket(bucket) => bucket in spec.buckets
    case NewKey(_) => true
    case _ => false
  }

  lemma TakenNonEmpty(parts: set<PartKey>, id: UploadId)
    ensures Taken(parts, id) != [] <==> exists p :: p in parts && p.upload == id && p.number >= 1
  {
    var q := TakenIsPrefix(parts, id);
    if Taken(parts, id) != [] {
      assert q[0] in q;
    }
    if p :| p in parts && p.upload == id && p.number >= 1 {
      assert p in q;
    }
  }

  lemma CompletesIff(env: Env, s: Store, full: Blobs, lists: Lists, spec: Spec, id: UploadId)
    requires Related(env, s, full, lists, spec)
    ensures Succeeds(env, s, Complete(id)) <==> Accepted(s, spec, Complete(id))
  {
    CompletionIs(env, s.tables, lists, id);
    TakenNonEmpty(spec.parts.Keys, id);
  }

  lemma CompletionIs(env: Env, t: Tables, lists: Lists, id: UploadId)
    requires Consistent(t, lists)
    ensures Transaction(env, t, Complete(id)).Some? <==> id in t.uploads && Taken(t.parts.Keys, id) != []
  {
    CompletesWhen(t, lists, env.digest, id);
  }

  /** No constraint of the schema ever rejects an operation for any other reason. */
  lemma SucceedsIff(env: Env, steps: seq<Step>, step: Step)
    requires Legal(env, NO_STORE, steps) && Enabled(env, Final(env, NO_STORE, steps), step)
    ensures var s, spec := Final(env, NO_STORE, steps), Promised(env, NO_STORE, NO_SPEC, steps);
            Succeeds(env, s, step) <==> Accepted(s, spec, step)
  {
    var s, spec := Final(env, NO_STORE, steps), Promised(env, NO_STORE, NO_SPEC, steps);
    var full, lists := ReachableRelated(env, steps);
    match step
    case Put(k, data, level, chunks) =>
      PutObjectConsistent(s.tables, lists, k, ObjectRow(env.digest(data), |data|, Compression(KIND, level)), chunks);
    case UploadPart(p, data, chunks) =>
      PutPartConsistent(s.tables, lists, p, PartRow(env.digest(data), |data|), chunks);
    case Create(id, k, level) =>
      CreateUploadConsistent(s.tables, lists, id, UploadRow(k.bucket, k.key, Compression(KIND, level)));
    case Complete(id) => CompletesIff(env, s, full, lists, spec, id);
    case _ =>
  }
}
