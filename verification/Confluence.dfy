/** What an upload completes to depends only on the last upload of each of its parts, whatever else happens
    to the store in between. */
module Confluence {
  import opened Base
  import opened Layout
  import opened Backends
  import opened Paging
  import opened Schema
  import opened Representation
  import opened Multipart
  import opened ObjectStore
  import opened Refinement
  import opened Promises

  /** The upload is still open after the step. */
  predicate Leaves(step: Step, id: UploadId, target: ObjectKey) {
    match step
    case Complete(x) => x != id
    case Abort(x) => x != id
    case DeleteBucket(bucket) => bucket != target.bucket
    case _ => true
  }

  ghost predicate AllLeave(steps: seq<Step>, id: UploadId, target: ObjectKey) {
    forall i :: 0 <= i < |steps| ==> Leaves(steps[i], id, target)
  }

  /** The upload's own parts. */
  function PartsFor(parts: map<PartKey, Bytes>, id: UploadId): map<PartKey, Bytes> {
    map p | p in parts && p.upload == id :: parts[p]
  }

  /** The contents of the last successful upload of each part number, in a run of any operations. */
  ghost function LastUploads(env: Env, s: Store, steps: seq<Step>, id: UploadId): map<PartKey, Bytes>
    decreases |steps|
  {
    if steps == [] then map[]
    else
      var later := LastUploads(env, Apply(env, s, steps[0]), steps[1..], id);
      if Uploads(env, s, steps[0], id) then Earlier(later, steps[0].p, steps[0].data) else later
  }

  ghost predicate Uploads(env: Env, s: Store, step: Step, id: UploadId) {
    step.UploadPart? && step.p.upload == id && Succeeds(env, s, step)
  }

  /** An earlier upload of a part counts only if there is no later one. */
  function Earlier(later: map<PartKey, Bytes>, p: PartKey, data: Bytes): map<PartKey, Bytes> {
    if p in later then later else later[p := data]
  }

  lemma EarlierOverlays(parts: map<PartKey, Bytes>, later: map<PartKey, Bytes>, p: PartKey, data: Bytes)
    ensures parts[p := data] + later == parts + Earlier(later, p, data)
  {
  }

  /** The parts of the upload after one step. */
  ghost function PartsAfter(env: Env, s: Store, parts: map<PartKey, Bytes>, step: Step,
                            id: UploadId): map<PartKey, Bytes> {
    if Uploads(env, s, step, id) then parts[step.p := step.data] else parts
  }

  lemma WithoutOthers(spec: Spec, ids: set<UploadId>, id: UploadId)
    requires id !in ids
    ensures PartsFor(WithoutUploads(spec, ids).parts, id) == PartsFor(spec.parts, id)
  {
  }

  /** The upload is still there, with the given parts. */
  ghost predicate HasParts(spec: Spec, id: UploadId, target: ObjectKey, parts: map<PartKey, Bytes>) {
    id in spec.uploads && spec.uploads[id] == target && PartsFor(spec.parts, id) == parts
  }

  lemma RemovalLeaves(digest: Bytes -> nat, spec: Spec, step: Step, id: UploadId)
    requires id in spec.uploads && Leaves(step, id, spec.uploads[id])
    requires step.Complete? || step.Abort? || step.DeleteBucket?
    ensures HasParts(Effect(digest, spec, step), id, spec.uploads[id], PartsFor(spec.parts, id))
  {
    match step
    case Complete(x) => WithoutOthers(spec, {x}, id);
    case Abort(x) => WithoutOthers(spec, {x}, id);
    case DeleteBucket(bucket) =>
      WithoutOthers(spec, (set u | u in spec.uploads && spec.uploads[u].bucket == bucket), id);
  }

  lemma UploadLeaves(spec: Spec, p: PartKey, data: Bytes, id: UploadId)
    ensures PartsFor(spec.parts[p := data], id)
         == if p.upload == id then PartsFor(spec.parts, id)[p := data] else PartsFor(spec.parts, id)
  {
  }

  lemma StepLeaves(env: Env, s: Store, spec: Spec, step: Step, id: UploadId)
    requires RowsMatch(env.digest, s.tables, spec) && id in spec.uploads && Leaves(step, id, spec.uploads[id])
    ensures HasParts(SpecAfter(env, s, spec, step), id, spec.uploads[id],
                     PartsAfter(env, s, PartsFor(spec.parts, id), step, id))
  {
    if Succeeds(env, s, step) {
      if step.Complete? || step.Abort? || step.DeleteBucket? {
        RemovalLeaves(env.digest, spec, step, id);
      } else if step.UploadPart? {
        UploadLeaves(spec, step.p, step.data, id);
      }
    }
  }

  /** Whatever other operations run meanwhile, the upload's parts are the earlier ones overlaid by the last
      successful upload of each number. */
  lemma {:induction false} LastUploadsDecide(env: Env, s: Store, full: Blobs, lists: Lists, spec: Spec,
                                             steps: seq<Step>, id: UploadId)
    requires Related(env, s, full, lists, spec) && Legal(env, s, steps)
    requires id in spec.uploads && AllLeave(steps, id, spec.uploads[id])
    ensures var after := Promised(env, s, spec, steps);
            && id in after.uploads && after.uploads[id] == spec.uploads[id]
            && PartsFor(after.parts, id) == PartsFor(spec.parts, id) + LastUploads(env, s, steps, id)
    decreases |steps|
  {
    if steps == [] {
      assert PartsFor(spec.parts, id) + map[] == PartsFor(spec.parts, id);
    } else {
      var step, u, mid := steps[0], Apply(env, s, steps[0]), SpecAfter(env, s, spec, steps[0]);
      var next := StepRelated(env, s, full, lists, spec, step);
      StepLeaves(env, s, spec, step, id);
      LastUploadsDecide(env, u, FullAfter(full, step), next, mid, steps[1..], id);
      if Uploads(env, s, step, id) {
        EarlierOverlays(PartsFor(spec.parts, id), LastUploads(env, u, steps[1..], id), step.p, step.data);
      }
    }
  }

  // ---------------------------------------------------------------------
  // What completion makes of them
  // ---------------------------------------------------------------------

  /** Which parts completion takes, and in which order, depends only on the upload's own parts. */
  lemma TakenLocal(a: set<PartKey>, b: set<PartKey>, id: UploadId)
    requires PartsOf(a, id) == PartsOf(b, id)
    ensures Taken(a, id) == Taken(b, id)
  {
    var q := TakenIsPrefix(a, id);
    NumbersRank(b, id);
    assert forall x :: x in q ==> x in PartsOf(a, id);
    ListingLocal(q, PartsOf(a, id), ByNumber(a), ByNumber(b));
    PageOf(q, PartsOf(b, id), ByNumber(b), MAX_PARTS, 1);
  }

  lemma ListingLocal(q: seq<PartKey>, rows: set<PartKey>, a: map<PartKey, int>, b: map<PartKey, int>)
    requires IsListing(q, rows, a, 1) && rows <= b.Keys && forall x :: x in rows ==> a[x] == b[x]
    ensures IsListing(q, rows, b, 1)
  {
    forall i | 0 <= i < |q|
      ensures q[i] in rows
    {
      assert q[i] in q;
    }
  }

  lemma {:induction false} JoinLocal(digest: Bytes -> nat, a: map<PartKey, Bytes>, b: map<PartKey, Bytes>,
                                     order: seq<PartKey>)
    requires forall p :: p in order ==> p in a && p in b && a[p] == b[p]
    ensures JoinParts(a, order) == JoinParts(b, order) && JoinDigests(digest, a, order) == JoinDigests(digest, b, order)
    decreases |order|
  {
    if order != [] {
      assert order[0] in order;
      JoinLocal(digest, a, b, order[1..]);
    }
  }

  lemma AssembledLocal(digest: Bytes -> nat, parts: map<PartKey, Bytes>, id: UploadId)
    ensures Assembled(digest, parts, id) == Assembled(digest, PartsFor(parts, id), id)
  {
    var own := PartsFor(parts, id);
    assert PartsOf(parts.Keys, id) == PartsOf(own.Keys, id);
    TakenLocal(parts.Keys, own.Keys, id);
    TakenAreParts(parts.Keys, id);
    JoinLocal(digest, parts, own, Taken(parts.Keys, id));
  }

  /** The key reads as the entity, with its size and checksum. */
  ghost predicate Yields(env: Env, s: Store, down: set<BackendId>, k: ObjectKey, e: Entity) {
    && ReadObject(env, s, down, k) == Some(e.data)
    && k in s.tables.objects && s.tables.objects[k].size == |e.data| && s.tables.objects[k].etag == e.etag
  }

  /** There is a part that completion takes. */
  ghost predicate SomePart(parts: map<PartKey, Bytes>) {
    exists p :: p in parts && p.number >= 1
  }

  lemma CompletesTo(env: Env, s: Store, full: Blobs, lists: Lists, spec: Spec, id: UploadId, down: set<BackendId>)
    requires Related(env, s, full, lists, spec) && id in spec.uploads && |down| <= Max(0, env.sys.tolerance)
    ensures Succeeds(env, s, Complete(id)) <==> SomePart(PartsFor(spec.parts, id))
    ensures Succeeds(env, s, Complete(id)) ==>
              Yields(env, Apply(env, s, Complete(id)), down, spec.uploads[id],
                     Assembled(env.digest, PartsFor(spec.parts, id), id))
  {
    CompletesIff(env, s, full, lists, spec, id);
    SomePartIff(spec.parts, id);
    if Succeeds(env, s, Complete(id)) {
      var k, t, after := spec.uploads[id], Apply(env, s, Complete(id)), SpecAfter(env, s, spec, Complete(id));
      var next := StepRelated(env, s, full, lists, spec, Complete(id));
      AssembledLocal(env.digest, spec.parts, id);
      RelatedPromise(env, t, full, next, after, down, k);
      RelatedReads(env, t, full, next, after, down, k);
    }
  }

  lemma SomePartIff(parts: map<PartKey, Bytes>, id: UploadId)
    ensures (exists p :: p in parts && p.upload == id && p.number >= 1) <==> SomePart(PartsFor(parts, id))
  {
    if p :| p in parts && p.upload == id && p.number >= 1 {
      assert p in PartsFor(parts, id);
    }
  }

  /** After any run that leaves the upload open, completing it depends only on the parts uploaded before, overlaid
      by the last upload of each number. */
  lemma CompletesAfter(env: Env, s: Store, full: Blobs, lists: Lists, spec: Spec, run: seq<Step>, id: UploadId,
                       down: set<BackendId>)
    requires Related(env, s, full, lists, spec) && Legal(env, s, run) && |down| <= Max(0, env.sys.tolerance)
    requires id in spec.uploads && AllLeave(run, id, spec.uploads[id])
    ensures var t, parts := Final(env, s, run), PartsFor(spec.parts, id) + LastUploads(env, s, run, id);
            && (Succeeds(env, t, Complete(id)) <==> SomePart(parts))
            && (Succeeds(env, t, Complete(id)) ==>
                  Yields(env, Apply(env, t, Complete(id)), down, spec.uploads[id], Assembled(env.digest, parts, id)))
  {
    LastUploadsDecide(env, s, full, lists, spec, run, id);
    var all, next := RunRelated(env, s, full, lists, spec, run);
    CompletesTo(env, Final(env, s, run), all, next, Promised(env, s, spec, run), id, down);
  }

  /** Two runs, with any other operations between the uploads, that end with the same last uploads of the parts
      complete alike: both or neither succeed, with the same bytes, size and combined checksum. */
  lemma UploadsAreConfluent(env: Env, steps: seq<Step>, a: seq<Step>, b: seq<Step>, id: UploadId, down: set<BackendId>)
    requires Legal(env, NO_STORE, steps) && |down| <= Max(0, env.sys.tolerance)
    requires var s := Final(env, NO_STORE, steps);
             && id in s.tables.uploads && Legal(env, s, a) && Legal(env, s, b)
             && AllLeave(a, id, Target(s.tables.uploads[id])) && AllLeave(b, id, Target(s.tables.uploads[id]))
             && LastUploads(env, s, a, id) == LastUploads(env, s, b, id)
    ensures var s, spec := Final(env, NO_STORE, steps), Promised(env, NO_STORE, NO_SPEC, steps);
            var k, x, y := Target(s.tables.uploads[id]), Final(env, s, a), Final(env, s, b);
            var e := Assembled(env.digest, PartsFor(spec.parts, id) + LastUploads(env, s, a, id), id);
            && (Succeeds(env, x, Complete(id)) <==> Succeeds(env, y, Complete(id)))
            && (Succeeds(env, x, Complete(id)) ==>
                  && Yields(env, Apply(env, x, Complete(id)), down, k, e)
                  && Yields(env, Apply(env, y, Complete(id)), down, k, e))
  {
    var s, spec := Final(env, NO_STORE, steps), Promised(env, NO_STORE, NO_SPEC, steps);
    var full, lists := ReachableRelated(env, steps);
    assert UploadOk(s.tables.uploads[id], spec.uploads[id]);
    CompletesAfter(env, s, full, lists, spec, a, id, down);
    CompletesAfter(env, s, full, lists, spec, b, id, down);
  }
}
