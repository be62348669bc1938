/** Which blobs the metadata refers to, and that no operation makes it refer to others than its own. */
module References {
  import opened Base
  import opened Backends
  import opened Chunks
  import opened Schema
  import opened Representation
  import opened Metadata
  import opened Multipart
  import opened ObjectStore

  /** All addresses in the lists. */
  function Referenced(lists: Lists): set<Address> {
    set o, a | o in lists && a in AllRefs(lists[o].chunks) :: a
  }

  lemma ListReferenced(lists: Lists, o: Owner)
    requires o in lists
    ensures AllRefs(lists[o].chunks) <= Referenced(lists)
  {
  }

  /** What a query for an owner's chunks finds. */
  lemma QueryFinds(t: Tables, lists: Lists, o: Owner)
    requires Represents(t, lists)
    ensures ChunksOf(t, o) == if o in lists then lists[o].chunks else []
  {
    RepresentedIsQueryable(t, lists);
    if o in lists {
      ChunksReadBack(t, lists, o);
    } else {
      EmptyRepresents(t, lists, o, "");
      ChunksReadBack(t, lists[o := Listing("", 0, [])], o);
    }
  }

  lemma UnlistedIff(t: Tables, lists: Lists, refs: set<Address>)
    requires Represents(t, lists)
    ensures Unlisted(t, refs) <==> Referenced(lists) !! refs
  {
    if Referenced(lists) !! refs {
      forall o
        ensures AllRefs(ChunksOf(t, o)) !! refs
      {
        QueryFinds(t, lists, o);
      }
    }
    if Unlisted(t, refs) {
      forall o | o in lists
        ensures AllRefs(lists[o].chunks) !! refs
      {
        QueryFinds(t, lists, o);
        assert AllRefs(ChunksOf(t, o)) !! refs;
      }
    }
  }

  lemma ReplacedReferences(lists: Lists, x: Owner, l: Listing)
    ensures Referenced(lists[x := l]) <= Referenced(lists) + AllRefs(l.chunks)
  {
    var more := lists[x := l];
    forall o | o in more
      ensures AllRefs(more[o].chunks) <= Referenced(lists) + AllRefs(l.chunks)
    {
      if o != x {
        ListReferenced(lists, o);
      }
    }
  }

  lemma FewerReferences(lists: Lists, gone: set<Owner>)
    ensures Referenced(lists - gone) <= Referenced(lists)
  {
    var left := lists - gone;
    forall o | o in left
      ensures AllRefs(left[o].chunks) <= Referenced(lists)
    {
      ListReferenced(lists, o);
    }
  }

  lemma {:induction false} ConcatReferences(lists: Lists, order: seq<PartKey>)
    requires forall p :: p in order ==> OfPart(p) in lists
    ensures AllRefs(Concat(lists, order)) <= Referenced(lists)
    decreases |order|
  {
    if order != [] {
      assert order[0] in order;
      ConcatReferences(lists, order[1..]);
      AllRefsAppend(lists[OfPart(order[0])].chunks, Concat(lists, order[1..]));
      ListReferenced(lists, OfPart(order[0]));
    }
  }

  /** What the operation itself brings. */
  function OwnRefs(step: Step): set<Address> {
    match step
    case Put(_, _, _, chunks) => AllRefs(chunks)
    case UploadPart(_, _, chunks) => AllRefs(chunks)
    case _ => {}
  }

  ghost predicate StreamOk(step: Step) {
    match step
    case Put(_, _, _, chunks) => AllWellFormed(chunks)
    case UploadPart(_, _, chunks) => AllWellFormed(chunks)
    case _ => true
  }

  lemma WriteReferences(env: Env, t: Tables, lists: Lists, step: Step) returns (next: Lists)
    requires Consistent(t, lists) && StreamOk(step) && (step.Put? || step.UploadPart?)
    requires Transaction(env, t, step).Some?
    ensures Consistent(Transaction(env, t, step).value, next) && Referenced(next) <= Referenced(lists) + OwnRefs(step)
  {
    match step {
      case Put(k, data, level, chunks) =>
        PutObjectConsistent(t, lists, k, ObjectRow(env.digest(data), |data|, Compression(KIND, level)), chunks);
        next := lists[OfObject(k) := Metadata.Whole(k.bucket, chunks)];
        ReplacedReferences(lists, OfObject(k), Metadata.Whole(k.bucket, chunks));
      case UploadPart(p, data, chunks) =>
        PutPartConsistent(t, lists, p, PartRow(env.digest(data), |data|), chunks);
        var l := Metadata.Whole(t.uploads[p.upload].bucket, chunks);
        next := lists[OfPart(p) := l];
        ReplacedReferences(lists, OfPart(p), l);
    }
  }

  lemma CompletionReferences(env: Env, t: Tables, lists: Lists, id: UploadId) returns (next: Lists)
    requires Consistent(t, lists) && Transaction(env, t, Complete(id)).Some?
    ensures Consistent(Transaction(env, t, Complete(id)).value, next) && Referenced(next) <= Referenced(lists)
  {
    CompleteConsistent(t, lists, env.digest, id);
    next := CompletedLists(t, lists, id);
    var order, k := Taken(t.parts.Keys, id), Target(t.uploads[id]);
    var l := Metadata.Whole(k.bucket, Concat(lists, order));
    ConcatReferences(lists, order);
    ReplacedReferences(lists, OfObject(k), l);
    FewerReferences(lists[OfObject(k) := l], PartOwners(t, {id}));
  }

  lemma RemovalReferences(env: Env, t: Tables, lists: Lists, step: Step) returns (next: Lists)
    requires Consistent(t, lists) && (step.Abort? || step.Delete? || step.DeleteBucket?)
    requires Transaction(env, t, step).Some?
    ensures Consistent(Transaction(env, t, step).value, next) && Referenced(next) <= Referenced(lists)
  {
    match step {
      case Abort(id) =>
        DeleteUploadsConsistent(t, lists, {id});
        next := lists - PartOwners(t, {id});
        FewerReferences(lists, PartOwners(t, {id}));
      case Delete(k) =>
        DeleteObjectConsistent(t, lists, k);
        next := lists - {OfObject(k)};
        FewerReferences(lists, {OfObject(k)});
      case DeleteBucket(bucket) =>
        DeleteBucketConsistent(t, lists, bucket);
        next := lists - OwnersIn(t, bucket);
        FewerReferences(lists, OwnersIn(t, bucket));
    }
  }

  /** An operation refers to nothing that was not referred to before, but for what it brings itself. */
  lemma StepReferences(env: Env, t: Tables, lists: Lists, step: Step) returns (next: Lists)
    requires Consistent(t, lists) && StreamOk(step) && Transaction(env, t, step).Some?
    ensures Consistent(Transaction(env, t, step).value, next) && Referenced(next) <= Referenced(lists) + OwnRefs(step)
  {
    next := lists;
    match step
    case Put(_, _, _, _) => next := WriteReferences(env, t, lists, step);
    case UploadPart(_, _, _) => next := WriteReferences(env, t, lists, step);
    case Complete(id) => next := CompletionReferences(env, t, lists, id);
    case Create(id, k, level) =>
      CreateUploadConsistent(t, lists, id, UploadRow(k.bucket, k.key, Compression(KIND, level)));
    case CreateBucket(bucket) => CreateBucketConsistent(t, lists, bucket);
    case NewKey(key) => KeyConsistent(t, lists, key);
    case _ => next := RemovalReferences(env, t, lists, step);
  }

  /** Blobs that no row refers to stay so, unless the step is the one that brings them. */
  lemma StaysUnlisted(env: Env, s: Store, lists: Lists, step: Step, refs: set<Address>)
    requires Consistent(s.tables, lists) && StreamOk(step) && Unlisted(s.tables, refs) && OwnRefs(step) !! refs
    ensures Unlisted(Apply(env, s, step).tables, refs)
  {
    if Transaction(env, s.tables, step).Some? {
      var next := StepReferences(env, s.tables, lists, step);
      UnlistedIff(s.tables, lists, refs);
      UnlistedIff(Transaction(env, s.tables, step).value, next, refs);
    }
  }

  /** The rows refer only to addresses that were handed out. */
  ghost predicate Covered(t: Tables, used: set<Address>) {
    exists lists :: Consistent(t, lists) && Referenced(lists) <= used
  }

  lemma CoveredUnlisted(t: Tables, used: set<Address>, refs: set<Address>)
    requires Covered(t, used) && refs !! used
    ensures Unlisted(t, refs)
  {
    var lists :| Consistent(t, lists) && Referenced(lists) <= used;
    UnlistedIff(t, lists, refs);
  }

  lemma StaysCovered(env: Env, t: Tables, used: set<Address>, step: Step, u: Tables, more: set<Address>)
    requires Covered(t, used) && StreamOk(step) && Transaction(env, t, step) == Some(u)
    requires used + OwnRefs(step) <= more
    ensures Covered(u, more)
  {
    var lists :| Consistent(t, lists) && Referenced(lists) <= used;
    var next := StepReferences(env, t, lists, step);
    assert Consistent(u, next) && Referenced(next) <= more;
  }
}
