/** Every operation keeps the store related to what clients are promised. */
module Refinement {
  import opened Base
  import opened Backends
  import opened Chunks
  import opened Schema
  import opened Representation
  import opened Metadata
  import opened Multipart
  import opened ObjectStore

  // ---------------------------------------------------------------------
  // Data
  // ---------------------------------------------------------------------

  /** Adding blobs disturbs nothing. */
  lemma GrownData(sys: System, before: Blobs, after: Blobs, lists: Lists, spec: Spec)
    requires DataMatch(sys, before, lists, spec) && Keeps(before, after)
    ensures DataMatch(sys, after, lists, spec)
  {
    forall o | o in lists
      ensures DataOk(sys, after, lists[o], Content(spec, o))
    {
      assert DataOk(sys, before, lists[o], Content(spec, o));
      IntactFrame(sys, before, after, lists[o].chunks, Content(spec, o).value);
    }
  }

  /** Same contents as far as the lists go, except perhaps for one owner. */
  ghost predicate SameContents(lists: Lists, a: Spec, b: Spec, except: set<Owner>) {
    forall o :: o in lists && o !in except ==> Content(a, o) == Content(b, o)
  }

  /** One owner's list is replaced. */
  lemma ReplacedData(sys: System, blobs: Blobs, lists: Lists, a: Spec, b: Spec, x: Owner, l: Listing)
    requires DataMatch(sys, blobs, lists, a) && SameContents(lists, a, b, {x})
    requires DataOk(sys, blobs, l, Content(b, x))
    ensures DataMatch(sys, blobs, lists[x := l], b)
  {
    forall o | o in lists[x := l]
      ensures DataOk(sys, blobs, lists[x := l][o], Content(b, o))
    {
      if o != x {
        assert DataOk(sys, blobs, lists[o], Content(a, o));
      }
    }
  }

  lemma ReplacedApart(lists: Lists, x: Owner, l: Listing)
    requires Apart(lists)
    requires forall o :: o in lists && o != x ==> Separate(lists[o], l)
    ensures Apart(lists[x := l])
  {
    var more := lists[x := l];
    forall a, b | a in more && b in more && a != b
      ensures Separate(more[a], more[b])
    {
      if a == x {
        assert Separate(lists[b], l);
      } else if b == x {
        assert Separate(lists[a], l);
      } else {
        assert Separate(lists[a], lists[b]);
      }
    }
  }

  /** Some owners' lists are removed. */
  lemma FewerData(sys: System, blobs: Blobs, lists: Lists, a: Spec, b: Spec, gone: set<Owner>)
    requires DataMatch(sys, blobs, lists, a) && SameContents(lists, a, b, gone)
    ensures DataMatch(sys, blobs, lists - gone, b)
  {
    forall o | o in lists - gone
      ensures DataOk(sys, blobs, (lists - gone)[o], Content(b, o))
    {
      assert DataOk(sys, blobs, lists[o], Content(a, o));
    }
  }

  lemma FewerApart(lists: Lists, gone: set<Owner>)
    requires Apart(lists)
    ensures Apart(lists - gone)
  {
    var left := lists - gone;
    forall a, b | a in left && b in left && a != b
      ensures Separate(left[a], left[b])
    {
      assert Separate(lists[a], lists[b]);
    }
  }

  /** What no row refers to is in no list. */
  lemma UnlistedApart(t: Tables, lists: Lists, refs: set<Address>, o: Owner)
    requires Represents(t, lists) && Unlisted(t, refs) && o in lists
    ensures AllRefs(lists[o].chunks) !! refs
  {
    ChunksReadBack(t, lists, o);
    RepresentedIsQueryable(t, lists);
    assert ChunksOf(t, o) == lists[o].chunks;
  }

  /** A stream's chunks become an owner's list. */
  lemma StreamedData(env: Env, s: Store, full: Blobs, lists: Lists, a: Spec, b: Spec, x: Owner, l: Listing, data: Bytes)
    requires DataMatch(env.sys, full, lists, a) && Apart(lists) && Consistent(s.tables, lists)
    requires Streamed(env, s, l.chunks, data) && Keeps(s.blobs, full)
    requires SameContents(lists, a, b, {x}) && Content(b, x) == Some(data)
    ensures DataMatch(env.sys, full, lists[x := l], b) && Apart(lists[x := l])
  {
    forall o | o in lists
      ensures Separate(lists[o], l)
    {
      UnlistedApart(s.tables, lists, AllRefs(l.chunks), o);
    }
    ReplacedApart(lists, x, l);
    IntactFrame(env.sys, s.blobs, full, l.chunks, data);
    ReplacedData(env.sys, full, lists, a, b, x, l);
  }

  // ---------------------------------------------------------------------
  // What is there
  // ---------------------------------------------------------------------

  /** The same blobs under other tables. */
  lemma PresentUnder(s: Store, full: Blobs, lists: Lists, damaged: set<ObjectKey>, t: Tables)
    requires Present(s, full, lists, damaged)
    ensures Present(s.(tables := t), full, lists, damaged)
  {
    forall o | o in lists && !(o.OfObject? && o.name in damaged)
      ensures AllThere(s.blobs, lists[o])
    {
      assert AllThere(s.blobs, lists[o]);
    }
  }

  /** An upload adds blobs; every list that was complete stays so. */
  lemma UploadPresent(s: Store, full: Blobs, added: Blobs, burned: set<Address>, lists: Lists, damaged: set<ObjectKey>)
    requires Present(s, full, lists, damaged) && added.Keys !! s.used
    ensures Present(Store(s.tables, s.blobs + added, s.used + added.Keys + burned), full + added, lists, damaged)
    ensures Keeps(full, full + added)
  {
    forall o | o in lists && !(o.OfObject? && o.name in damaged)
      ensures AllThere(s.blobs + added, lists[o])
    {
      assert AllThere(s.blobs, lists[o]);
    }
  }

  /** Removing unlisted blobs leaves every list as complete as it was. */
  lemma DiscardPresent(s: Store, full: Blobs, gone: set<Address>, lists: Lists, damaged: set<ObjectKey>)
    requires Present(s, full, lists, damaged) && Represents(s.tables, lists) && Unlisted(s.tables, gone)
    ensures Present(s.(blobs := s.blobs - gone), full, lists, damaged)
  {
    forall o | o in lists && !(o.OfObject? && o.name in damaged)
      ensures AllThere(s.blobs - gone, lists[o])
    {
      assert AllThere(s.blobs, lists[o]);
      UnlistedApart(s.tables, lists, gone, o);
    }
  }

  /** A list whose blobs are all there replaces an owner's, which is then not damaged. */
  lemma ReplacedPresent(s: Store, full: Blobs, lists: Lists, a: set<ObjectKey>, b: set<ObjectKey>, x: Owner, l: Listing)
    requires Present(s, full, lists, a) && AllThere(s.blobs, l)
    requires forall k :: k in a && OfObject(k) != x ==> k in b
    ensures Present(s, full, lists[x := l], b)
  {
    forall o | o in lists[x := l] && !(o.OfObject? && o.name in b)
      ensures AllThere(s.blobs, lists[x := l][o])
    {
      if o != x {
        assert AllThere(s.blobs, lists[o]);
      }
    }
  }

  lemma FewerPresent(s: Store, full: Blobs, lists: Lists, a: set<ObjectKey>, b: set<ObjectKey>, gone: set<Owner>,
                     t: Tables)
    requires Present(s, full, lists, a) && forall k :: k in a && OfObject(k) !in gone ==> k in b
    ensures Present(s.(tables := t), full, lists - gone, b)
  {
    forall o | o in lists - gone && !(o.OfObject? && o.name in b)
      ensures AllThere(s.blobs, (lists - gone)[o])
    {
      assert AllThere(s.blobs, lists[o]);
    }
  }

  /** Removing blobs of one owner leaves every other list complete. */
  lemma RemovedPresent(s: Store, full: Blobs, after: Blobs, lists: Lists, a: set<ObjectKey>, b: set<ObjectKey>,
                       k: ObjectKey, left: Lists, t: Tables)
    requires Present(s, full, lists, a) && Apart(lists) && OfObject(k) in lists
    requires OnlyRemoved(s.blobs, after, AllRefs(lists[OfObject(k)].chunks))
    requires (forall o :: o in left ==> o in lists && left[o] == lists[o]) && (OfObject(k) in left ==> k in b)
    requires forall x :: x in a && x != k ==> x in b
    ensures Present(Store(t, after, s.used), full, left, b)
  {
    forall o | o in left && !(o.OfObject? && o.name in b)
      ensures AllThere(after, left[o])
    {
      assert AllThere(s.blobs, lists[o]);
      assert Separate(lists[o], lists[OfObject(k)]);
    }
  }

  // ---------------------------------------------------------------------
  // One lemma per operation
  // ---------------------------------------------------------------------

  lemma PutRows(digest: Bytes -> nat, t: Tables, u: Tables, spec: Spec, k: ObjectKey, row: ObjectRow, e: Entity,
                damaged: set<ObjectKey>)
    requires RowsMatch(digest, t, spec) && ObjectOk(row, e)
    requires OnlyChunksDiffer(t.(buckets := t.buckets + {k.bucket}, objects := t.objects[k := row]), u)
    ensures RowsMatch(digest, u,
              spec.(buckets := spec.buckets + {k.bucket}, objects := spec.objects[k := e], damaged := damaged))
  {
  }

  lemma PutContents(lists: Lists, spec: Spec, k: ObjectKey, e: Entity, after: Spec)
    requires after.objects == spec.objects[k := e] && after.parts == spec.parts
    ensures SameContents(lists, spec, after, {OfObject(k)}) && Content(after, OfObject(k)) == Some(e.data)
  {
  }

  lemma PutSound(env: Env, s: Store, full: Blobs, lists: Lists, spec: Spec, step: Step)
    requires Related(env, s, full, lists, spec) && Enabled(env, s, step) && step.Put? && Succeeds(env, s, step)
    ensures var next := lists[OfObject(step.k) := Metadata.Whole(step.k.bucket, step.chunks)];
            Sound(env, Apply(env, s, step).tables, full, next, Effect(env.digest, spec, step))
  {
    var k, data := step.k, step.data;
    var row, e := ObjectRow(env.digest(data), |data|, Compression(KIND, step.level)), Entity(data, env.digest(data));
    var after := Effect(env.digest, spec, step);
    PutObjectConsistent(s.tables, lists, k, row, step.chunks);
    PutRows(env.digest, s.tables, Apply(env, s, step).tables, spec, k, row, e, after.damaged);
    PutContents(lists, spec, k, e, after);
    StreamedData(env, s, full, lists, spec, after, OfObject(k), Metadata.Whole(k.bucket, step.chunks), data);
  }

  lemma StreamedPresent(env: Env, s: Store, full: Blobs, lists: Lists, a: set<ObjectKey>, b: set<ObjectKey>, x: Owner,
                        l: Listing, data: Bytes, t: Tables)
    requires Present(s, full, lists, a) && Streamed(env, s, l.chunks, data)
    requires forall k :: k in a && OfObject(k) != x ==> k in b
    ensures Present(s.(tables := t), full, lists[x := l], b)
  {
    ReplacedPresent(s, full, lists, a, b, x, l);
    PresentUnder(s, full, lists[x := l], b, t);
  }

  lemma PutPresent(env: Env, s: Store, full: Blobs, lists: Lists, spec: Spec, step: Step)
    requires Present(s, full, lists, spec.damaged) && spec.damaged <= spec.objects.Keys && Enabled(env, s, step)
    requires step.Put?
    ensures var next := lists[OfObject(step.k) := Metadata.Whole(step.k.bucket, step.chunks)];
            var after := Effect(env.digest, spec, step);
            && Present(Apply(env, s, step), full, next, after.damaged) && after.damaged <= after.objects.Keys
            && Spares(s, step, lists, next)
  {
    var l := Metadata.Whole(step.k.bucket, step.chunks);
    StreamedPresent(env, s, full, lists, spec.damaged, Effect(env.digest, spec, step).damaged, OfObject(step.k), l,
                    step.data, Apply(env, s, step).tables);
  }

  lemma PutRelated(env: Env, s: Store, full: Blobs, lists: Lists, spec: Spec, step: Step) returns (next: Lists)
    requires Related(env, s, full, lists, spec) && Enabled(env, s, step) && step.Put? && Succeeds(env, s, step)
    ensures Related(env, Apply(env, s, step), full, next, Effect(env.digest, spec, step))
    ensures Spares(s, step, lists, next)
  {
    next := lists[OfObject(step.k) := Metadata.Whole(step.k.bucket, step.chunks)];
    PutSound(env, s, full, lists, spec, step);
    PutPresent(env, s, full, lists, spec, step);
  }

  lemma PutPartRows(digest: Bytes -> nat, t: Tables, u: Tables, spec: Spec, p: PartKey, data: Bytes)
    requires RowsMatch(digest, t, spec)
    requires OnlyChunksDiffer(t.(parts := t.parts[p := PartRow(digest(data), |data|)]), u)
    ensures RowsMatch(digest, u, spec.(parts := spec.parts[p := data]))
  {
  }

  lemma PartContents(lists: Lists, spec: Spec, p: PartKey, data: Bytes)
    ensures var after := spec.(parts := spec.parts[p := data]);
            SameContents(lists, spec, after, {OfPart(p)}) && Content(after, OfPart(p)) == Some(data)
  {
  }

  lemma UploadPartSound(env: Env, s: Store, full: Blobs, lists: Lists, spec: Spec, step: Step)
    requires Related(env, s, full, lists, spec) && Enabled(env, s, step) && step.UploadPart? && Succeeds(env, s, step)
    ensures step.p.upload in s.tables.uploads
    ensures var next := lists[OfPart(step.p) := Metadata.Whole(s.tables.uploads[step.p.upload].bucket, step.chunks)];
            Sound(env, Apply(env, s, step).tables, full, next, Effect(env.digest, spec, step))
  {
    var p, chunks, data := step.p, step.chunks, step.data;
    PutPartConsistent(s.tables, lists, p, PartRow(env.digest(data), |data|), chunks);
    PutPartRows(env.digest, s.tables, Apply(env, s, step).tables, spec, p, data);
    PartContents(lists, spec, p, data);
    var l := Metadata.Whole(s.tables.uploads[p.upload].bucket, chunks);
    StreamedData(env, s, full, lists, spec, Effect(env.digest, spec, step), OfPart(p), l, data);
  }

  lemma UploadPartPresent(env: Env, s: Store, full: Blobs, lists: Lists, spec: Spec, step: Step, bucket: string)
    requires Present(s, full, lists, spec.damaged) && Enabled(env, s, step) && step.UploadPart?
    ensures var next := lists[OfPart(step.p) := Metadata.Whole(bucket, step.chunks)];
            && Present(Apply(env, s, step), full, next, Effect(env.digest, spec, step).damaged)
            && Spares(s, step, lists, next)
  {
    StreamedPresent(env, s, full, lists, spec.damaged, spec.damaged, OfPart(step.p),
                    Metadata.Whole(bucket, step.chunks), step.data, Apply(env, s, step).tables);
  }

  lemma UploadPartRelated(env: Env, s: Store, full: Blobs, lists: Lists, spec: Spec, step: Step) returns (next: Lists)
    requires Related(env, s, full, lists, spec) && Enabled(env, s, step) && step.UploadPart? && Succeeds(env, s, step)
    ensures Related(env, Apply(env, s, step), full, next, Effect(env.digest, spec, step))
    ensures Spares(s, step, lists, next)
  {
    UploadPartSound(env, s, full, lists, spec, step);
    var bucket := s.tables.uploads[step.p.upload].bucket;
    next := lists[OfPart(step.p) := Metadata.Whole(bucket, step.chunks)];
    UploadPartPresent(env, s, full, lists, spec, step, bucket);
  }

  lemma AbortedRows(digest: Bytes -> nat, t: Tables, spec: Spec, id: UploadId)
    requires RowsMatch(digest, t, spec)
    ensures RowsMatch(digest, DeleteUploadRows(t, {id}), WithoutUploads(spec, {id}))
  {
    assert DeleteUploadRows(t, {id}).parts.Keys == WithoutUploads(spec, {id}).parts.Keys;
  }

  lemma AbortRelated(env: Env, s: Store, full: Blobs, lists: Lists, spec: Spec, step: Step) returns (next: Lists)
    requires Related(env, s, full, lists, spec) && step.Abort? && Succeeds(env, s, step)
    ensures Related(env, Apply(env, s, step), full, next, Effect(env.digest, spec, step))
    ensures Spares(s, step, lists, next)
  {
    var gone := PartOwners(s.tables, {step.id});
    next := lists - gone;
    AbortSound(env, s.tables, full, lists, spec, step.id);
    FewerPresent(s, full, lists, spec.damaged, spec.damaged, gone, Apply(env, s, step).tables);
  }

  lemma AbortSound(env: Env, t: Tables, full: Blobs, lists: Lists, spec: Spec, id: UploadId)
    requires Sound(env, t, full, lists, spec)
    ensures Sound(env, DeleteUploadRows(t, {id}), full, lists - PartOwners(t, {id}), WithoutUploads(spec, {id}))
  {
    var gone := PartOwners(t, {id});
    DeleteUploadsConsistent(t, lists, {id});
    AbortedRows(env.digest, t, spec, id);
    assert forall o :: o in lists ==> OwnerExists(t, o);
    WithoutUploadContents(t, lists, spec, id);
    FewerData(env.sys, full, lists, spec, WithoutUploads(spec, {id}), gone);
    FewerApart(lists, gone);
  }

  lemma DeleteBucketRows(digest: Bytes -> nat, t: Tables, lists: Lists, spec: Spec, step: Step)
    requires RowsMatch(digest, t, spec) && ParentsExist(t) && Metadata.Owned(t, lists) && step.DeleteBucket?
    ensures RowsMatch(digest, DeleteBucketRow(t, step.bucket), Effect(digest, spec, step))
    ensures SameContents(lists, spec, Effect(digest, spec, step), OwnersIn(t, step.bucket))
  {
    var u, after := DeleteBucketRow(t, step.bucket), Effect(digest, spec, step);
    assert (set x | x in spec.uploads && spec.uploads[x].bucket == step.bucket) == UploadsIn(t, step.bucket) by {
      assert forall x :: x in spec.uploads ==> UploadOk(t.uploads[x], spec.uploads[x]);
    }
    assert u.objects.Keys == after.objects.Keys;
    assert u.uploads.Keys == after.uploads.Keys;
    assert u.parts.Keys == after.parts.Keys;
    SurvivingContents(digest, t, lists, spec, step);
  }

  lemma SurvivingContents(digest: Bytes -> nat, t: Tables, lists: Lists, spec: Spec, step: Step)
    requires RowsMatch(digest, t, spec) && Metadata.Owned(t, lists) && step.DeleteBucket?
    requires (set x | x in spec.uploads && spec.uploads[x].bucket == step.bucket) == UploadsIn(t, step.bucket)
    ensures SameContents(lists, spec, Effect(digest, spec, step), OwnersIn(t, step.bucket))
  {
    forall o | o in lists && o !in OwnersIn(t, step.bucket)
      ensures Content(spec, o) == Content(Effect(digest, spec, step), o)
    {
      assert OwnerExists(t, o);
      if o.OfPart? {
        assert o.part !in PartsOfUploads(t, UploadsIn(t, step.bucket));
      }
    }
  }

  lemma DeleteBucketSound(env: Env, t: Tables, full: Blobs, lists: Lists, spec: Spec, step: Step)
    requires Sound(env, t, full, lists, spec) && step.DeleteBucket?
    ensures Sound(env, DeleteBucketRow(t, step.bucket), full, lists - OwnersIn(t, step.bucket),
                  Effect(env.digest, spec, step))
  {
    var gone := OwnersIn(t, step.bucket);
    DeleteBucketConsistent(t, lists, step.bucket);
    DeleteBucketRows(env.digest, t, lists, spec, step);
    FewerData(env.sys, full, lists, spec, Effect(env.digest, spec, step), gone);
    FewerApart(lists, gone);
  }

  lemma DeleteBucketRelated(env: Env, s: Store, full: Blobs, lists: Lists, spec: Spec, step: Step) returns (next: Lists)
    requires Related(env, s, full, lists, spec) && step.DeleteBucket? && Succeeds(env, s, step)
    ensures Related(env, Apply(env, s, step), full, next, Effect(env.digest, spec, step))
    ensures Spares(s, step, lists, next)
  {
    var gone := OwnersIn(s.tables, step.bucket);
    next := lists - gone;
    DeleteBucketSound(env, s.tables, full, lists, spec, step);
    BucketDamage(env, s.tables, spec, step);
    FewerPresent(s, full, lists, spec.damaged, Effect(env.digest, spec, step).damaged, gone,
                 Apply(env, s, step).tables);
  }

  lemma BucketDamage(env: Env, t: Tables, spec: Spec, step: Step)
    requires RowsMatch(env.digest, t, spec) && spec.damaged <= spec.objects.Keys && step.DeleteBucket?
    ensures var after := Effect(env.digest, spec, step);
            && after.damaged <= after.objects.Keys
            && forall k :: k in spec.damaged && OfObject(k) !in OwnersIn(t, step.bucket) ==> k in after.damaged
  {
    forall k | k in spec.damaged && k.bucket == step.bucket
      ensures OfObject(k) in OwnersIn(t, step.bucket)
    {
      assert k in t.objects;
    }
  }

  lemma DeletedRows(digest: Bytes -> nat, t: Tables, lists: Lists, spec: Spec, step: Step)
    requires RowsMatch(digest, t, spec) && step.Delete?
    ensures RowsMatch(digest, DeleteObjectRow(t, step.k), Effect(digest, spec, step))
    ensures SameContents(lists, spec, Effect(digest, spec, step), {OfObject(step.k)})
  {
  }

  lemma DeleteSound(env: Env, t: Tables, full: Blobs, lists: Lists, spec: Spec, step: Step)
    requires Sound(env, t, full, lists, spec) && step.Delete?
    ensures Sound(env, DeleteObjectRow(t, step.k), full, lists - {OfObject(step.k)}, Effect(env.digest, spec, step))
  {
    DeleteObjectConsistent(t, lists, step.k);
    DeletedRows(env.digest, t, lists, spec, step);
    FewerData(env.sys, full, lists, spec, Effect(env.digest, spec, step), {OfObject(step.k)});
    FewerApart(lists, {OfObject(step.k)});
  }

  /** A listed object's addresses are those of its list. */
  lemma RefsOfList(env: Env, s: Store, full: Blobs, lists: Lists, spec: Spec, k: ObjectKey)
    requires Sound(env, s.tables, full, lists, spec) && k in s.tables.objects
    ensures OfObject(k) in lists && ChunksOf(s.tables, OfObject(k)) == lists[OfObject(k)].chunks
    ensures RefsOf(s, k) == AllRefs(lists[OfObject(k)].chunks)
  {
    ChunksReadBack(s.tables, lists, OfObject(k));
  }

  lemma DeletePresent(env: Env, s: Store, full: Blobs, lists: Lists, spec: Spec, k: ObjectKey, t: Tables)
    requires Present(s, full, lists, spec.damaged) && Apart(lists) && OfObject(k) in lists
    requires RefsOf(s, k) == AllRefs(lists[OfObject(k)].chunks)
    ensures var after := s.blobs - RefsOf(s, k);
            Present(Store(t, after, s.used), full, lists - {OfObject(k)}, spec.damaged - {k})
  {
    RemovedPresent(s, full, s.blobs - RefsOf(s, k), lists, spec.damaged, spec.damaged - {k}, k, lists - {OfObject(k)},
                   t);
  }

  lemma DeleteRelated(env: Env, s: Store, full: Blobs, lists: Lists, spec: Spec, step: Step) returns (next: Lists)
    requires Related(env, s, full, lists, spec) && step.Delete? && Succeeds(env, s, step)
    ensures Related(env, Apply(env, s, step), full, next, Effect(env.digest, spec, step))
    ensures Spares(s, step, lists, next)
  {
    next := lists - {OfObject(step.k)};
    DeleteSound(env, s.tables, full, lists, spec, step);
    RefsOfList(env, s, full, lists, spec, step.k);
    DeletePresent(env, s, full, lists, spec, step.k, Apply(env, s, step).tables);
  }

  /** A delete that gave up: the tables stay as they are, and only that object may have lost blobs. */
  lemma DeleteFailsRelated(env: Env, s: Store, full: Blobs, lists: Lists, spec: Spec, step: Step)
    requires Related(env, s, full, lists, spec) && Enabled(env, s, step) && step.DeleteFails?
    ensures Related(env, Apply(env, s, step), full, lists, SpecAfter(env, s, spec, step))
  {
    var damaged := SpecAfter(env, s, spec, step).damaged;
    if step.k in s.tables.objects {
      RefsOfList(env, s, full, lists, spec, step.k);
      RemovedPresent(s, full, step.after, lists, spec.damaged, damaged, step.k, lists, s.tables);
    } else {
      assert step.after == s.blobs;
    }
    DamageIsSound(env, s.tables, full, lists, spec, damaged);
  }

  lemma DamageIsSound(env: Env, t: Tables, full: Blobs, lists: Lists, spec: Spec, damaged: set<ObjectKey>)
    requires Sound(env, t, full, lists, spec)
    ensures Sound(env, t, full, lists, spec.(damaged := damaged))
  {
    FewerData(env.sys, full, lists, spec, spec.(damaged := damaged), {});
    assert lists - {} == lists;
  }

  ghost predicate IsSmall(step: Step) {
    step.Create? || step.CreateBucket? || step.NewKey?
  }

  lemma SmallStepRows(env: Env, t: Tables, spec: Spec, step: Step)
    requires RowsMatch(env.digest, t, spec) && ParentsExist(t) && IsSmall(step) && Transaction(env, t, step).Some?
    ensures var u := Transaction(env, t, step).value;
            RowsMatch(env.digest, u, Effect(env.digest, spec, step)) && ParentsExist(u)
  {
  }

  lemma SmallStepOwned(env: Env, t: Tables, lists: Lists, step: Step)
    requires Metadata.Owned(t, lists) && IsSmall(step) && Transaction(env, t, step).Some?
    ensures var u := Transaction(env, t, step).value;
            Metadata.Owned(u, lists) && u.chunks == t.chunks && u.shards == t.shards
  {
    var u := Transaction(env, t, step).value;
    forall o | o in lists
      ensures OwnerExists(u, o) && Rooted(u, o, lists[o])
    {
      assert OwnerExists(t, o) && Rooted(t, o, lists[o]);
    }
  }

  lemma SmallStepData(env: Env, blobs: Blobs, lists: Lists, spec: Spec, step: Step)
    requires DataMatch(env.sys, blobs, lists, spec) && IsSmall(step)
    ensures DataMatch(env.sys, blobs, lists, Effect(env.digest, spec, step))
  {
    FewerData(env.sys, blobs, lists, spec, Effect(env.digest, spec, step), {});
    assert lists - {} == lists;
  }

  lemma SmallStepSound(env: Env, t: Tables, full: Blobs, lists: Lists, spec: Spec, step: Step)
    requires Sound(env, t, full, lists, spec) && IsSmall(step) && Transaction(env, t, step).Some?
    ensures Sound(env, Transaction(env, t, step).value, full, lists, Effect(env.digest, spec, step))
  {
    SmallStepRows(env, t, spec, step);
    SmallStepOwned(env, t, lists, step);
    RepresentsFrame(t, Transaction(env, t, step).value, lists);
    SmallStepData(env, full, lists, spec, step);
  }

  lemma SmallStepRelated(env: Env, s: Store, full: Blobs, lists: Lists, spec: Spec, step: Step)
    requires Related(env, s, full, lists, spec) && IsSmall(step) && Succeeds(env, s, step)
    ensures Related(env, Apply(env, s, step), full, lists, Effect(env.digest, spec, step))
  {
    SmallStepSound(env, s.tables, full, lists, spec, step);
    SmallStepPresent(env, s, full, lists, spec, step);
  }

  lemma SmallStepPresent(env: Env, s: Store, full: Blobs, lists: Lists, spec: Spec, step: Step)
    requires Present(s, full, lists, spec.damaged) && IsSmall(step)
    ensures Present(Apply(env, s, step), full, lists, Effect(env.digest, spec, step).damaged)
  {
    FewerPresent(s, full, lists, spec.damaged, spec.damaged, {}, Apply(env, s, step).tables);
    assert lists - {} == lists;
  }

  /** Blobs of streams, uploaded or cleaned up, and operations that fail otherwise, change no list. */
  lemma OtherwiseRelated(env: Env, s: Store, full: Blobs, lists: Lists, spec: Spec, step: Step)
    requires Related(env, s, full, lists, spec) && Enabled(env, s, step) && !Succeeds(env, s, step)
    requires !step.DeleteFails?
    ensures Related(env, Apply(env, s, step), FullAfter(full, step), lists, spec)
  {
    match step
    case Upload(added, burned) =>
      UploadPresent(s, full, added, burned, lists, spec.damaged);
      GrownData(env.sys, full, full + added, lists, spec);
    case Discard(gone) => DiscardPresent(s, full, gone, lists, spec.damaged);
    case Delete(k) => assert RefsOf(s, k) == {}; assert s.blobs - RefsOf(s, k) == s.blobs;
    case _ =>
  }

  // ---------------------------------------------------------------------
  // Completion
  // ---------------------------------------------------------------------

  /** The concatenated chunk lists hold the concatenated contents. */
  lemma {:induction false} ConcatHolds(sys: System, blobs: Blobs, lists: Lists, spec: Spec, order: seq<PartKey>)
    requires DataMatch(sys, blobs, lists, spec)
    requires forall p :: p in order ==> OfPart(p) in lists && p in spec.parts
    ensures Intact(sys, blobs, Concat(lists, order), JoinParts(spec.parts, order))
    decreases |order|
  {
    if order == [] {
      IntactNothing(sys, blobs);
    } else {
      var p := order[0];
      assert p in order;
      assert DataOk(sys, blobs, lists[OfPart(p)], Content(spec, OfPart(p)));
      ConcatHolds(sys, blobs, lists, spec, order[1..]);
      IntactAppend(sys, blobs, lists[OfPart(p)].chunks, spec.parts[p], Concat(lists, order[1..]),
                   JoinParts(spec.parts, order[1..]));
    }
  }

  lemma {:induction false} ConcatSeparate(lists: Lists, order: seq<PartKey>, l: Listing, bucket: string)
    requires forall p :: p in order ==> OfPart(p) in lists && Separate(lists[OfPart(p)], l)
    ensures Separate(l, Metadata.Whole(bucket, Concat(lists, order)))
    decreases |order|
  {
    if order != [] {
      var p := order[0];
      assert p in order;
      ConcatSeparate(lists, order[1..], l, bucket);
      AllRefsAppend(lists[OfPart(p)].chunks, Concat(lists, order[1..]));
    }
  }

  /** Sizes add up, and the combined digest is fed with the parts' digests. */
  lemma {:induction false} CombinedMatches(digest: Bytes -> nat, t: Tables, spec: Spec, order: seq<PartKey>)
    requires RowsMatch(digest, t, spec) && forall p :: p in order ==> p in t.parts
    ensures TotalSize(PartRows(t, order)) == |JoinParts(spec.parts, order)|
    ensures EtagBytes(PartRows(t, order), 8) == JoinDigests(digest, spec.parts, order)
    decreases |order|
  {
    if order != [] {
      var p := order[0];
      assert p in order;
      assert PartOk(digest, t.parts[p], spec.parts[p]);
      CombinedMatches(digest, t, spec, order[1..]);
      assert PartRows(t, order)[1..] == PartRows(t, order[1..]);
    }
  }

  lemma CompletedRows(digest: Bytes -> nat, t: Tables, spec: Spec, id: UploadId, row: ObjectRow, e: Entity, u: Tables)
    requires RowsMatch(digest, t, spec) && ParentsExist(t) && id in t.uploads
    requires OnlyChunksDiffer(CompletedTables(t, id, row), u)
    requires ObjectOk(row, e)
    ensures RowsMatch(digest, u, Handed(spec, id, e))
  {
    assert UploadOk(t.uploads[id], spec.uploads[id]);
    assert t.buckets + {spec.uploads[id].bucket} == t.buckets;
    assert u.parts.Keys == Handed(spec, id, e).parts.Keys;
  }

  lemma TargetContents(lists: Lists, spec: Spec, k: ObjectKey, e: Entity, damaged: set<ObjectKey>)
    ensures SameContents(lists, spec, spec.(objects := spec.objects[k := e], damaged := damaged), {OfObject(k)})
  {
  }

  /** Only the contents of the upload's parts are gone. */
  lemma WithoutUploadContents(t: Tables, lists: Lists, spec: Spec, id: UploadId)
    requires t.parts.Keys == spec.parts.Keys && forall o :: o in lists && o.OfPart? ==> o.part in t.parts
    ensures SameContents(lists, spec, WithoutUploads(spec, {id}), PartOwners(t, {id}))
  {
    forall o | o in lists && o !in PartOwners(t, {id})
      ensures Content(spec, o) == Content(WithoutUploads(spec, {id}), o)
    {
      if o.OfPart? {
        assert o.part !in PartsOfUploads(t, {id});
      }
    }
  }

  lemma CompletedData(sys: System, blobs: Blobs, t: Tables, lists: Lists, spec: Spec, id: UploadId, e: Entity,
                      chunks: seq<Chunk>)
    requires Metadata.Owned(t, lists) && t.parts.Keys == spec.parts.Keys && id in spec.uploads
    requires DataMatch(sys, blobs, lists, spec) && Intact(sys, blobs, chunks, e.data)
    ensures var k := spec.uploads[id];
            DataMatch(sys, blobs, lists[OfObject(k) := Metadata.Whole(k.bucket, chunks)] - PartOwners(t, {id}),
                      Handed(spec, id, e))
  {
    var k := spec.uploads[id];
    var l := Metadata.Whole(k.bucket, chunks);
    var mid := spec.(objects := spec.objects[k := e], damaged := spec.damaged - {k});
    TargetContents(lists, spec, k, e, spec.damaged - {k});
    ReplacedData(sys, blobs, lists, spec, mid, OfObject(k), l);
    assert forall o :: o in lists ==> OwnerExists(t, o);
    WithoutUploadContents(t, lists[OfObject(k) := l], mid, id);
    FewerData(sys, blobs, lists[OfObject(k) := l], mid, Handed(spec, id, e), PartOwners(t, {id}));
  }

  lemma CompletedApart(t: Tables, lists: Lists, id: UploadId)
    requires Apart(lists) && id in t.uploads && forall p :: p in Taken(t.parts.Keys, id) ==> OfPart(p) in lists
    ensures Apart(CompletedLists(t, lists, id))
  {
    var order, gone, k := Taken(t.parts.Keys, id), PartOwners(t, {id}), Target(t.uploads[id]);
    var l := Metadata.Whole(k.bucket, Concat(lists, order));
    TakenAreParts(t.parts.Keys, id);
    FewerApart(lists, gone);
    forall o | o in lists - gone && o != OfObject(k)
      ensures Separate((lists - gone)[o], l)
    {
      forall p | p in order
        ensures Separate(lists[OfPart(p)], lists[o])
      {
        assert p in PartsOfUploads(t, {id});
        assert OfPart(p) in gone;
      }
      ConcatSeparate(lists, order, lists[o], k.bucket);
    }
    ReplacedApart(lists - gone, OfObject(k), l);
    assert (lists - gone)[OfObject(k) := l] == CompletedLists(t, lists, id);
  }

  /** The object row matches the assembled object, whose data the concatenated chunks hold. */
  lemma AssembledMatches(env: Env, blobs: Blobs, t: Tables, lists: Lists, spec: Spec, id: UploadId)
    requires RowsMatch(env.digest, t, spec) && Metadata.Owned(t, lists) && DataMatch(env.sys, blobs, lists, spec)
    requires id in t.uploads
    ensures forall p :: p in Taken(t.parts.Keys, id) ==> p in t.parts && OfPart(p) in lists
    ensures var e, order := Assembled(env.digest, spec.parts, id), Taken(t.parts.Keys, id);
            && ObjectOk(CombinedRow(env.digest, t.uploads[id], PartRows(t, order)), e)
            && Intact(env.sys, blobs, Concat(lists, order), e.data)
  {
    var order := Taken(t.parts.Keys, id);
    TakenAreParts(t.parts.Keys, id);
    CombinedMatches(env.digest, t, spec, order);
    ConcatHolds(env.sys, blobs, lists, spec, order);
    assert UploadOk(t.uploads[id], spec.uploads[id]);
  }

  lemma CompletedMatches(env: Env, t: Tables, full: Blobs, lists: Lists, spec: Spec, id: UploadId, u: Tables)
    requires RowsMatch(env.digest, t, spec) && DataMatch(env.sys, full, lists, spec)
    requires ParentsExist(t) && Metadata.Owned(t, lists) && id in t.uploads
    requires forall p :: p in Taken(t.parts.Keys, id) ==> p in t.parts && OfPart(p) in lists
    requires var rows := PartRows(t, Taken(t.parts.Keys, id));
             OnlyChunksDiffer(CompletedTables(t, id, CombinedRow(env.digest, t.uploads[id], rows)), u)
    ensures var e := Assembled(env.digest, spec.parts, id);
            && RowsMatch(env.digest, u, Handed(spec, id, e))
            && DataMatch(env.sys, full, CompletedLists(t, lists, id), Handed(spec, id, e))
  {
    AssembledMatches(env, full, t, lists, spec, id);
    var order, e := Taken(t.parts.Keys, id), Assembled(env.digest, spec.parts, id);
    assert UploadOk(t.uploads[id], spec.uploads[id]);
    CompletedRows(env.digest, t, spec, id, CombinedRow(env.digest, t.uploads[id], PartRows(t, order)), e, u);
    CompletedData(env.sys, full, t, lists, spec, id, e, Concat(lists, order));
  }

  lemma CompletedSound(env: Env, t: Tables, full: Blobs, lists: Lists, spec: Spec, id: UploadId, u: Tables)
    requires Sound(env, t, full, lists, spec) && id in t.uploads
    requires forall p :: p in Taken(t.parts.Keys, id) ==> p in t.parts && OfPart(p) in lists
    requires Consistent(u, CompletedLists(t, lists, id))
    requires var rows := PartRows(t, Taken(t.parts.Keys, id));
             OnlyChunksDiffer(CompletedTables(t, id, CombinedRow(env.digest, t.uploads[id], rows)), u)
    ensures Sound(env, u, full, CompletedLists(t, lists, id), Handed(spec, id, Assembled(env.digest, spec.parts, id)))
  {
    CompletedMatches(env, t, full, lists, spec, id, u);
    CompletedApart(t, lists, id);
  }

  lemma CompleteSound(env: Env, t: Tables, full: Blobs, lists: Lists, spec: Spec, id: UploadId, u: Tables)
    requires Sound(env, t, full, lists, spec) && Queryable(t) && CompleteTx(t, env.digest, id) == Some(u)
    ensures id in t.uploads && forall p :: p in Taken(t.parts.Keys, id) ==> OfPart(p) in lists
    ensures Sound(env, u, full, CompletedLists(t, lists, id), Handed(spec, id, Assembled(env.digest, spec.parts, id)))
  {
    CompleteConsistent(t, lists, env.digest, id);
    CompletedSound(env, t, full, lists, spec, id, u);
  }

  lemma {:induction false} ConcatThere(blobs: Blobs, lists: Lists, order: seq<PartKey>)
    requires forall p :: p in order ==> OfPart(p) in lists && AllThere(blobs, lists[OfPart(p)])
    ensures AllRefs(Concat(lists, order)) <= blobs.Keys
    decreases |order|
  {
    if order != [] {
      assert order[0] in order;
      assert AllThere(blobs, lists[OfPart(order[0])]);
      ConcatThere(blobs, lists, order[1..]);
      AllRefsAppend(lists[OfPart(order[0])].chunks, Concat(lists, order[1..]));
    }
  }

  lemma CompletedPresent(s: Store, full: Blobs, lists: Lists, damaged: set<ObjectKey>, id: UploadId, u: Tables)
    requires Present(s, full, lists, damaged) && id in s.tables.uploads
    requires forall p :: p in Taken(s.tables.parts.Keys, id) ==> OfPart(p) in lists
    ensures Present(s.(tables := u), full, CompletedLists(s.tables, lists, id),
                    damaged - {Target(s.tables.uploads[id])})
  {
    var k, order := Target(s.tables.uploads[id]), Taken(s.tables.parts.Keys, id);
    var l := Metadata.Whole(k.bucket, Concat(lists, order));
    forall p | p in order
      ensures AllThere(s.blobs, lists[OfPart(p)])
    {
    }
    ConcatThere(s.blobs, lists, order);
    ReplacedPresent(s, full, lists, damaged, damaged - {k}, OfObject(k), l);
    FewerPresent(s, full, lists[OfObject(k) := l], damaged - {k}, damaged - {k}, PartOwners(s.tables, {id}), u);
  }

  lemma CompletedSpares(s: Store, lists: Lists, id: UploadId)
    requires id in s.tables.uploads && forall p :: p in Taken(s.tables.parts.Keys, id) ==> OfPart(p) in lists
    ensures Spares(s, Complete(id), lists, CompletedLists(s.tables, lists, id))
  {
    forall k | OfObject(k) in lists && !Touches(s, Complete(id), k)
      ensures OfObject(k) in CompletedLists(s.tables, lists, id)
      ensures CompletedLists(s.tables, lists, id)[OfObject(k)] == lists[OfObject(k)]
    {
      OthersStay(s.tables, lists, id, OfObject(k));
    }
  }

  lemma CompleteRelated(env: Env, s: Store, full: Blobs, lists: Lists, spec: Spec, step: Step) returns (next: Lists)
    requires Related(env, s, full, lists, spec) && step.Complete? && Succeeds(env, s, step)
    ensures Related(env, Apply(env, s, step), full, next, Effect(env.digest, spec, step))
    ensures Spares(s, step, lists, next)
  {
    CompleteSound(env, s.tables, full, lists, spec, step.id, Apply(env, s, step).tables);
    assert UploadOk(s.tables.uploads[step.id], spec.uploads[step.id]);
    CompletedPresent(s, full, lists, spec.damaged, step.id, Apply(env, s, step).tables);
    CompletedSpares(s, lists, step.id);
    next := CompletedLists(s.tables, lists, step.id);
  }

  // ---------------------------------------------------------------------
  // Runs
  // ---------------------------------------------------------------------

  /** Every operation that succeeds keeps the relation, and the lists of objects it does not name. */
  lemma SuccessRelated(env: Env, s: Store, full: Blobs, lists: Lists, spec: Spec, step: Step) returns (next: Lists)
    requires Related(env, s, full, lists, spec) && Enabled(env, s, step) && Succeeds(env, s, step)
    ensures Related(env, Apply(env, s, step), FullAfter(full, step), next, Effect(env.digest, spec, step))
    ensures Spares(s, step, lists, next)
  {
    match step {
      case Put(_, _, _, _) => next := PutRelated(env, s, full, lists, spec, step);
      case UploadPart(_, _, _) => next := UploadPartRelated(env, s, full, lists, spec, step);
      case Complete(_) => next := CompleteRelated(env, s, full, lists, spec, step);
      case Abort(_) => next := AbortRelated(env, s, full, lists, spec, step);
      case Delete(_) => next := DeleteRelated(env, s, full, lists, spec, step);
      case DeleteBucket(_) => next := DeleteBucketRelated(env, s, full, lists, spec, step);
      case _ =>
        SmallStepRelated(env, s, full, lists, spec, step);
        next := lists;
    }
  }

  /** Every operation, successful or not, keeps the relation. */
  lemma StepRelated(env: Env, s: Store, full: Blobs, lists: Lists, spec: Spec, step: Step) returns (next: Lists)
    requires Related(env, s, full, lists, spec) && Enabled(env, s, step)
    ensures Related(env, Apply(env, s, step), FullAfter(full, step), next, SpecAfter(env, s, spec, step))
    ensures Spares(s, step, lists, next) && (!Succeeds(env, s, step) ==> next == lists)
  {
    if Succeeds(env, s, step) {
      next := SuccessRelated(env, s, full, lists, spec, step);
    } else {
      next := lists;
      if step.DeleteFails? {
        DeleteFailsRelated(env, s, full, lists, spec, step);
      } else {
        OtherwiseRelated(env, s, full, lists, spec, step);
      }
    }
  }

  lemma {:induction false} RunRelated(env: Env, s: Store, full: Blobs, lists: Lists, spec: Spec, steps: seq<Step>)
    returns (all: Blobs, next: Lists)
    requires Related(env, s, full, lists, spec) && Legal(env, s, steps)
    ensures Related(env, Final(env, s, steps), all, next, Promised(env, s, spec, steps))
    decreases |steps|
  {
    if steps == [] {
      all, next := full, lists;
    } else {
      var more := StepRelated(env, s, full, lists, spec, steps[0]);
      all, next := RunRelated(env, Apply(env, s, steps[0]), FullAfter(full, steps[0]), more,
                              SpecAfter(env, s, spec, steps[0]), steps[1..]);
    }
  }

  /** Every reachable state has its tables in order and keeps every promise. */
  lemma ReachableRelated(env: Env, steps: seq<Step>) returns (full: Blobs, lists: Lists)
    requires Legal(env, NO_STORE, steps)
    ensures Related(env, Final(env, NO_STORE, steps), full, lists, Promised(env, NO_STORE, NO_SPEC, steps))
    ensures InOrder(Final(env, NO_STORE, steps).tables)
  {
    EmptyRelated(env);
    full, lists := RunRelated(env, NO_STORE, map[], map[], NO_SPEC, steps);
    ConsistentIsInOrder(Final(env, NO_STORE, steps).tables, lists);
  }
}
