/** What every run of `ChunkStream` guarantees, in every interleaving of its own steps and of others'. */
module PipelineResults {
  import opened Base
  import opened Layout
  import opened Backends
  import opened Sharding
  import opened Chunks
  import opened Pipeline
  import opened Slices

  // ---------------------------------------------------------------------
  // Success
  // ---------------------------------------------------------------------

  /** The list `ChunkStream` returns. */
  function Result(s: State): seq<Chunk> {
    seq(|s.reader.pieces|, i requires 0 <= i =>
      if i in s.work.completed then s.work.completed[i] else ZERO_CHUNK)
  }

  /** Every ordinal is there, chunk i holds the i-th slice on addresses that are its own and new, and all of the
      input was seen in order. */
  ghost predicate Complete(job: Job, s: State)
    requires job.chunkSize > 0
  {
    var slices, chunks := Chop(job.input, job.chunkSize), Result(s);
    && s.reader.total == |job.input| && s.reader.digest == job.input
    && s.reader.pieces == slices && |chunks| == |slices|
    && (forall i :: 0 <= i < |slices| ==> i in s.work.completed && Produced(job, s.disk, chunks[i], slices[i]))
    && (forall i :: 0 <= i < |slices| ==> Refs(chunks[i]) <= Own(s.disk) && Refs(chunks[i]) !! job.used)
    && (forall i, j :: 0 <= i < j < |slices| ==> Refs(chunks[i]) !! Refs(chunks[j]))
  }

  lemma PiecesAreSlices(job: Job, r: Reader)
    requires job.chunkSize > 0 && ReaderInv(job, r) && r.total == |job.input|
    ensures r.digest == job.input && r.pieces == Chop(job.input, job.chunkSize)
  {
    assert job.input[..|job.input|] == job.input;
    if r.pieces != [] {
      var k := |r.pieces| - 1;
      assert forall i :: 0 <= i < k ==> r.pieces[i] == r.pieces[..k][i];
    }
    ChopOfFlatten(r.pieces, job.chunkSize);
  }

  lemma AllCompleted(job: Job, pieces: seq<Bytes>, w: Work, d: Disk)
    requires WorkInv(job, pieces, w, false) && w.active == map[] && w.failed == map[]
    requires DiskInv(job, w, d) && ChunkInv(job, pieces, w, d, true)
    ensures forall i: nat :: i < |pieces| ==>
              && i in w.completed && Produced(job, d, w.completed[i], pieces[i])
              && Refs(w.completed[i]) <= Own(d) && Refs(w.completed[i]) !! job.used
  {
    forall i: nat | i < |pieces|
      ensures i in w.completed && Produced(job, d, w.completed[i], pieces[i])
      ensures Refs(w.completed[i]) <= Own(d) && Refs(w.completed[i]) !! job.used
    {
      assert Known(w, i);
      OwnedIsOwn(d, i);
      assert Refs(w.completed[i]) == Owned(d, i) && Owned(d, i) !! job.used;
    }
  }

  lemma CompletedApart(job: Job, pieces: seq<Bytes>, w: Work, d: Disk)
    requires DiskInv(job, w, d) && ChunkInv(job, pieces, w, d, true)
    ensures forall i, j :: i in w.completed && j in w.completed && i != j ==>
              Refs(w.completed[i]) !! Refs(w.completed[j])
  {
    forall i, j | i in w.completed && j in w.completed && i != j
      ensures Refs(w.completed[i]) !! Refs(w.completed[j])
    {
      assert Refs(w.completed[i]) == Owned(d, i) && Refs(w.completed[j]) == Owned(d, j);
    }
  }

  lemma ResultHolds(job: Job, s: State)
    requires WorkInv(job, s.reader.pieces, s.work, false) && s.work.active == map[] && s.work.failed == map[]
    requires DiskInv(job, s.work, s.disk) && ChunkInv(job, s.reader.pieces, s.work, s.disk, true)
    ensures var pieces, chunks := s.reader.pieces, Result(s);
            && (forall i :: 0 <= i < |pieces| ==> i in s.work.completed && Produced(job, s.disk, chunks[i], pieces[i]))
            && (forall i :: 0 <= i < |pieces| ==> Refs(chunks[i]) <= Own(s.disk) && Refs(chunks[i]) !! job.used)
            && (forall i, j :: 0 <= i < j < |pieces| ==> Refs(chunks[i]) !! Refs(chunks[j]))
  {
    AllCompleted(job, s.reader.pieces, s.work, s.disk);
    CompletedApart(job, s.reader.pieces, s.work, s.disk);
  }

  lemma SucceededIsComplete(job: Job, s: State)
    requires Inv(job, s) && s.phase.Succeeded?
    ensures Complete(job, s)
  {
    PiecesAreSlices(job, s.reader);
    ResultHolds(job, s);
  }

  /** Success, in every interleaving. */
  lemma SuccessIsComplete(job: Job, blobs: Blobs, steps: seq<Step>)
    requires Ready(job) && blobs.Keys <= job.used && Legal(job, Init(job, blobs), steps)
    requires Final(job, Init(job, blobs), steps).phase.Succeeded?
    ensures Complete(job, Final(job, Init(job, blobs), steps))
  {
    Reachable(job, blobs, steps);
    SucceededIsComplete(job, Final(job, Init(job, blobs), steps));
  }

  lemma HeldReads(job: Job, d: Disk, chunks: seq<Chunk>, pieces: seq<Bytes>, less: Blobs, down: set<BackendId>)
    requires |chunks| == |pieces| && Keeps(less, d.blobs)
    requires forall i :: 0 <= i < |pieces| ==> Produced(job, d, chunks[i], pieces[i])
    ensures ReadChunks(job.sys, less, down, chunks, job.comp.kind)
         == if AllEnough(less, down, chunks) then Some(Flatten(pieces)) else None
    ensures |down| <= Max(0, job.sys.tolerance) ==> AllEnough(d.blobs, down, chunks)
  {
    forall i | 0 <= i < |chunks|
      ensures Exact(job.sys, d.blobs, chunks[i], job.comp.kind, pieces[i]) && Tolerant(job.sys, d.blobs, chunks[i])
    {
      assert Produced(job, d, chunks[i], pieces[i]);
    }
    PiecesRead(job.sys, d.blobs, less, down, chunks, job.comp.kind, pieces);
  }

  lemma SucceededReads(job: Job, s: State, less: Blobs, down: set<BackendId>)
    requires Inv(job, s) && s.phase.Succeeded? && Keeps(less, s.disk.blobs)
    ensures ReadChunks(job.sys, less, down, Result(s), job.comp.kind)
         == if AllEnough(less, down, Result(s)) then Some(job.input) else None
    ensures |down| <= Max(0, job.sys.tolerance) ==> AllEnough(s.disk.blobs, down, Result(s))
  {
    ResultHolds(job, s);
    assert job.input[..|job.input|] == job.input;
    HeldReads(job, s.disk, Result(s), s.reader.pieces, less, down);
  }

  /** What was streamed in reads back if enough of every chunk can be read, and not at all otherwise; and enough
      can be read whichever tolerated backends are down. */
  lemma SuccessReadsBack(job: Job, blobs: Blobs, steps: seq<Step>, less: Blobs, down: set<BackendId>)
    requires Ready(job) && blobs.Keys <= job.used && Legal(job, Init(job, blobs), steps)
    requires var s := Final(job, Init(job, blobs), steps); s.phase.Succeeded? && Keeps(less, s.disk.blobs)
    ensures var s := Final(job, Init(job, blobs), steps);
            && ReadChunks(job.sys, less, down, Result(s), job.comp.kind)
               == (if AllEnough(less, down, Result(s)) then Some(job.input) else None)
            && (|down| <= Max(0, job.sys.tolerance) ==> AllEnough(s.disk.blobs, down, Result(s)))
  {
    Reachable(job, blobs, steps);
    SucceededReads(job, Final(job, Init(job, blobs), steps), less, down);
  }

  // ---------------------------------------------------------------------
  // Failure
  // ---------------------------------------------------------------------

  /** The blobs that are not this call's. */
  function Theirs(d: Disk): Blobs {
    map a | a in d.blobs && a !in Own(d) :: d.blobs[a]
  }

  lemma OwnAfterStore(d: Disk, i: nat, a: Address, data: Bytes)
    ensures Own(Store(d, i, a, data)) == Own(d) + {a}
  {
    var e := Store(d, i, a, data);
    forall x | x in Own(d)
      ensures x in Own(e)
    {
      var j :| j in d.owned && x in d.owned[j];
      assert x in e.owned[j];
    }
    assert a in e.owned[i];
  }

  lemma DeletesOwn(job: Job, s: State)
    requires Inv(job, s) && Enabled(job, s, Delete)
    ensures AddressOf(s.phase.queue[0]) in Own(s.disk)
  {
    var i :| i in s.work.completed && Within(s.phase.queue, s.work.completed[i].shards);
    assert s.phase.queue[0] in s.work.completed[i].shards;
    assert AddressOf(s.phase.queue[0]) in Refs(s.work.completed[i]);
    OwnedIsOwn(s.disk, i);
  }

  lemma OwnIsUsed(job: Job, w: Work, d: Disk)
    requires DiskInv(job, w, d)
    ensures Own(d) <= d.used && Own(d) !! job.used
  {
  }

  lemma StoreLeavesTheirs(d: Disk, i: nat, a: Address, data: Bytes)
    requires a !in d.used && d.blobs.Keys <= d.used
    ensures Theirs(Store(d, i, a, data)) == Theirs(d)
  {
    OwnAfterStore(d, i, a, data);
  }

  lemma DeleteLeavesTheirs(d: Disk, a: Address)
    requires a in Own(d)
    ensures Theirs(d.(blobs := d.blobs - {a})) == Theirs(d)
  {
    assert Own(d.(blobs := d.blobs - {a})) == Own(d);
  }

  /** What a step does to the disk: nothing, a new blob, or one of its own less. */
  lemma DiskAfter(job: Job, s: State, step: Step)
    requires Enabled(job, s, step) && !step.Others?
    ensures var d := Apply(job, s, step).disk;
            if step.Put? then
              var t := s.work.active[step.ordinal];
              d == Store(s.disk, step.ordinal, AddressOf(NextShard(job, t, step.backend, step.location)),
                         NextRaw(t, step.backend).data)
            else if step.Delete? then d == s.disk.(blobs := s.disk.blobs - {AddressOf(s.phase.queue[0])})
            else d == s.disk
  {
  }

  /** No step of the call touches a blob that is not its own. */
  lemma OwnStepsLeaveTheirs(job: Job, s: State, step: Step)
    requires Inv(job, s) && Enabled(job, s, step) && !step.Others?
    ensures Theirs(Apply(job, s, step).disk) == Theirs(s.disk)
  {
    DiskAfter(job, s, step);
    if step.Put? {
      PutLeavesTheirs(job, s, step.ordinal, step.backend, step.location);
    } else if step.Delete? {
      DeletesOwn(job, s);
      DeleteLeavesTheirs(s.disk, AddressOf(s.phase.queue[0]));
    }
  }

  lemma PutLeavesTheirs(job: Job, s: State, i: nat, b: nat, location: nat)
    requires s.disk.blobs.Keys <= s.disk.used && CanPut(job, s, i, b, location)
    ensures var t := s.work.active[i];
            Theirs(Store(s.disk, i, AddressOf(NextShard(job, t, b, location)), NextRaw(t, b).data)) == Theirs(s.disk)
  {
    var t := s.work.active[i];
    StoreLeavesTheirs(s.disk, i, AddressOf(NextShard(job, t, b, location)), NextRaw(t, b).data);
  }

  /** Stored by a worker that failed. */
  ghost predicate LeftBehind(s: State, a: Address) {
    exists i :: i in s.work.failed && a in Owned(s.disk, i)
  }

  lemma CompletedGone(job: Job, s: State, i: nat)
    requires Inv(job, s) && s.phase.Failed? && !s.deleteFailed && i in s.work.completed
    ensures Owned(s.disk, i) == Refs(s.work.completed[i]) && Owned(s.disk, i) !! s.disk.blobs.Keys
  {
    assert GoneBut(s.work.completed[i].shards, [], s.disk.blobs);
  }

  /** Failure: if every delete succeeded, no blob of a completed chunk is left. */
  lemma FailureCleansUp(job: Job, blobs: Blobs, steps: seq<Step>)
    requires Ready(job) && blobs.Keys <= job.used && Legal(job, Init(job, blobs), steps)
    requires var s := Final(job, Init(job, blobs), steps); s.phase.Failed? && !s.deleteFailed
    ensures var s := Final(job, Init(job, blobs), steps);
            forall i :: i in s.work.completed ==> Refs(s.work.completed[i]) !! s.disk.blobs.Keys
  {
    Reachable(job, blobs, steps);
    var s := Final(job, Init(job, blobs), steps);
    forall i | i in s.work.completed
      ensures Refs(s.work.completed[i]) !! s.disk.blobs.Keys
    {
      CompletedGone(job, s, i);
    }
  }

  lemma FailedStays(job: Job, s: State, i: nat)
    requires Inv(job, s) && i in s.work.failed
    ensures Owned(s.disk, i) <= s.disk.blobs.Keys && !Uploads(s.work.failed[i])
    ensures s.work.failed[i].recipe.None? ==> Owned(s.disk, i) == {}
  {
    var t := s.work.failed[i];
    assert TaskOk(job, s.disk, i, t) && !Uploads(t);
    if t.recipe.Some? {
      ProgressStored(t.recipe.value.plan, job.sys.backends, t.done, s.disk.blobs);
    }
  }

  lemma ProgressStored(plan: seq<seq<RawShard>>, backends: seq<BackendId>, done: seq<seq<Shard>>, blobs: Blobs)
    requires Progress(plan, backends, done, blobs, 0)
    ensures Addresses(Flatten(done)) <= blobs.Keys
  {
    forall x | x in Flatten(done)
      ensures AddressOf(x) in blobs
    {
      FlattenHas(done, x);
      var i :| 0 <= i < |done| && x in done[i];
      var k :| 0 <= k < |done[i]| && done[i][k] == x;
      assert Uploaded(done[i], plan[i][..|done[i]|], backends[i], blobs, 0);
    }
  }

  lemma LeftoversOf(job: Job, s: State, a: Address)
    requires Inv(job, s) && s.phase.Failed? && !s.deleteFailed && a in Own(s.disk)
    ensures a in s.disk.blobs <==> LeftBehind(s, a)
  {
    var i :| i in s.disk.owned && a in s.disk.owned[i];
    assert Known(s.work, i);
    if i in s.work.completed {
      CompletedGone(job, s, i);
    } else {
      FailedStays(job, s, i);
    }
    if LeftBehind(s, a) {
      var j :| j in s.work.failed && a in Owned(s.disk, j);
      FailedStays(job, s, j);
    }
  }

  /** Of the call's blobs, exactly those that failed workers had stored are left behind. So a failed call whose
      deletes succeeded leaves no orphan if and only if no failed worker had stored anything. */
  lemma LeftBehindIff(job: Job, blobs: Blobs, steps: seq<Step>)
    requires Ready(job) && blobs.Keys <= job.used && Legal(job, Init(job, blobs), steps)
    requires var s := Final(job, Init(job, blobs), steps); s.phase.Failed? && !s.deleteFailed
    ensures var s := Final(job, Init(job, blobs), steps);
            && (forall a :: a in Own(s.disk) ==> (a in s.disk.blobs <==> LeftBehind(s, a)))
            && (Own(s.disk) !! s.disk.blobs.Keys <==> forall i :: i in s.work.failed ==> Owned(s.disk, i) == {})
  {
    Reachable(job, blobs, steps);
    var s := Final(job, Init(job, blobs), steps);
    forall a | a in Own(s.disk)
      ensures a in s.disk.blobs <==> LeftBehind(s, a)
    {
      LeftoversOf(job, s, a);
    }
    if Own(s.disk) !! s.disk.blobs.Keys {
      forall i | i in s.work.failed
        ensures Owned(s.disk, i) == {}
      {
        OwnedIsOwn(s.disk, i);
        FailedStays(job, s, i);
      }
    }
  }

  /** The number of blobs in a plan. */
  function Count(plan: seq<seq<RawShard>>): nat {
    |Flatten(plan)|
  }

  lemma {:induction false} NotAllOfOne(plan: seq<seq<RawShard>>, done: seq<seq<Shard>>)
    requires |plan| == |done| && forall i :: 0 <= i < |plan| ==> |done[i]| <= |plan[i]|
    ensures |Flatten(done)| <= Count(plan)
    ensures |Flatten(done)| == Count(plan) ==> forall i :: 0 <= i < |plan| ==> |done[i]| == |plan[i]|
  {
    if plan != [] {
      NotAllOfOne(plan[1..], done[1..]);
      if |Flatten(done)| == Count(plan) {
        forall i | 0 <= i < |plan|
          ensures |done[i]| == |plan[i]|
        {
          assert i > 0 ==> done[i] == done[1..][i - 1] && plan[i] == plan[1..][i - 1];
        }
      }
    }
  }

  /** A failed worker whose plan has at most one blob has stored nothing. */
  lemma OneBlobLeavesNothing(job: Job, s: State, i: nat)
    requires Inv(job, s) && i in s.work.failed
    requires s.work.failed[i].recipe.Some? ==> Count(s.work.failed[i].recipe.value.plan) <= 1
    ensures Owned(s.disk, i) == {}
  {
    FailedStays(job, s, i);
    var t := s.work.failed[i];
    assert TaskOk(job, s.disk, i, t);
    if t.recipe.Some? {
      NotAllOfOne(t.recipe.value.plan, t.done);
      assert Flatten(t.done) == [];
    }
  }

  // ---------------------------------------------------------------------
  // The pool, cancellation, and progress
  // ---------------------------------------------------------------------

  /** In no state of any run are more workers active than the limit allows. */
  lemma ConcurrencyIsBounded(job: Job, blobs: Blobs, steps: seq<Step>)
    requires Ready(job) && blobs.Keys <= job.used && Legal(job, Init(job, blobs), steps)
    ensures |Final(job, Init(job, blobs), steps).work.active| <= Max(1, job.concurrency)
  {
    Reachable(job, blobs, steps);
  }

  /** A run that leaves the read loop by cancellation never ends in success. */
  lemma CancelledRunsFail(job: Job, blobs: Blobs, before: seq<Step>, after: seq<Step>)
    requires Ready(job) && blobs.Keys <= job.used && Legal(job, Init(job, blobs), before)
    requires Final(job, Init(job, blobs), before).phase == Waiting(ByCancel)
    requires Legal(job, Final(job, Init(job, blobs), before), after)
    ensures !Final(job, Final(job, Init(job, blobs), before), after).phase.Succeeded?
  {
    Reachable(job, blobs, before);
    var s := Final(job, Init(job, blobs), before);
    RunKeepsInv(job, s, after);
    Reachable(job, blobs, before);
    assert s.work.failed.Keys != {};
  }

  /** The read loop has been left. */
  predicate LoopLeft(s: State) {
    s.phase.Waiting? || s.phase.Cleaning? || s.phase.Succeeded? || s.phase.Failed?
  }

  lemma StaysLeft(job: Job, s: State, step: Step)
    requires LoopLeft(s) && Enabled(job, s, step)
    ensures !step.Check? && !step.ReadBuffer? && !step.Spawn?
    ensures LoopLeft(Apply(job, s, step)) && Apply(job, s, step).reader == s.reader
  {
  }

  lemma {:induction false} NothingReadAfterLoop(job: Job, s: State, steps: seq<Step>)
    requires LoopLeft(s) && Legal(job, s, steps)
    ensures forall i :: 0 <= i < |steps| ==> !steps[i].Check? && !steps[i].ReadBuffer? && !steps[i].Spawn?
    ensures Final(job, s, steps).reader == s.reader
    decreases |steps|
  {
    if steps != [] {
      StaysLeft(job, s, steps[0]);
      NothingReadAfterLoop(job, Apply(job, s, steps[0]), steps[1..]);
    }
  }

  /** Once the loop condition has been checked with a failure recorded, no buffer is read and no worker starts. */
  lemma FailureStopsTheReader(job: Job, s: State, steps: seq<Step>)
    requires s.phase.Checking? && s.work.failed != map[] && Legal(job, Apply(job, s, Check), steps)
    ensures forall i :: 0 <= i < |steps| ==> !steps[i].Check? && !steps[i].ReadBuffer? && !steps[i].Spawn?
    ensures Final(job, Apply(job, s, Check), steps).reader == s.reader
  {
    NothingReadAfterLoop(job, Apply(job, s, Check), steps);
  }

  lemma {:induction false} NameAbove(used: set<Address>) returns (name: nat)
    ensures forall a :: a in used ==> a.location < name
    decreases |used|
  {
    if used == {} {
      name := 0;
    } else {
      var a :| a in used;
      var below := NameAbove(used - {a});
      name := Max(below, a.location + 1);
      assert forall x :: x in used ==> x == a || x in used - {a};
    }
  }

  /** A worker whose recipe was made can always go on: it has a blob to upload, or it is done. */
  lemma WorkerGoesOn(job: Job, s: State, i: nat) returns (step: Step)
    requires Inv(job, s) && i in s.work.active && s.work.active[i].recipe.Some?
    ensures Enabled(job, s, step) && (step.Put? || step.Finish?)
  {
    var t := s.work.active[i];
    WorkerOk(job, s, i);
    if Uploads(t) {
      step := Finish(i, 0);
    } else {
      var b :| 0 <= b < |t.done| && |t.done[b]| != |t.recipe.value.plan[b]|;
      var name := NameAbove(s.disk.used);
      step := Put(i, b, name);
    }
  }

  /** The step is not a failure of a worker that could go on, and not someone else's. */
  predicate GoesOn(s: State, step: Step) {
    !step.Others? && (step.Abort? ==> step.ordinal in s.work.active && s.work.active[step.ordinal].recipe.None?)
  }

  lemma SomeWorkerMoves(job: Job, s: State) returns (step: Step)
    requires Inv(job, s) && s.work.active != map[]
    ensures Enabled(job, s, step) && GoesOn(s, step)
  {
    assert s.work.active.Keys != {};
    var i :| i in s.work.active.Keys;
    if s.work.active[i].recipe.Some? {
      step := WorkerGoesOn(job, s, i);
    } else {
      step := Abort(i);
    }
  }

  lemma ReaderMoves(job: Job, s: State) returns (step: Step)
    requires Inv(job, s) && s.phase.Reading?
    ensures Enabled(job, s, step) && step.ReadBuffer?
  {
    var left := |job.input| - s.reader.total;
    step := if left >= job.chunkSize then ReadBuffer(job.chunkSize, Full) else ReadBuffer(left, EndOfInput);
  }

  lemma CleanupMoves(job: Job, s: State) returns (step: Step)
    requires Inv(job, s) && s.phase.Cleaning?
    ensures Enabled(job, s, step) && (step.DeleteFails? || step.Pick? || step.Finished?)
  {
    if s.phase.queue != [] {
      step := DeleteFails;
    } else if s.phase.todo != {} {
      var i :| i in s.phase.todo;
      step := Pick(i);
    } else {
      step := Finished;
    }
  }

  /** No run gets stuck: until it has succeeded or failed, some step is possible that does not need a worker to
      fail which could go on, nor anyone else to act. */
  lemma NoDeadlock(job: Job, blobs: Blobs, steps: seq<Step>) returns (step: Step)
    requires Ready(job) && blobs.Keys <= job.used && Legal(job, Init(job, blobs), steps)
    requires !Over(Final(job, Init(job, blobs), steps))
    ensures Enabled(job, Final(job, Init(job, blobs), steps), step) && GoesOn(Final(job, Init(job, blobs), steps), step)
  {
    Reachable(job, blobs, steps);
    var s := Final(job, Init(job, blobs), steps);
    match s.phase
    case Checking => step := Check;
    case Reading => step := ReaderMoves(job, s);
    case Spawning(_) =>
      if |s.work.active| < Limit(job) {
        step := Spawn(None);
      } else {
        step := SomeWorkerMoves(job, s);
      }
    case Waiting(_) =>
      if s.work.active == map[] {
        step := Join;
      } else {
        step := SomeWorkerMoves(job, s);
      }
    case Cleaning(_, _) => step := CleanupMoves(job, s);
  }

  // ---------------------------------------------------------------------
  // Termination
  // ---------------------------------------------------------------------

  predicate Over(s: State) {
    s.phase.Succeeded? || s.phase.Failed?
  }

  /** The k-th blob that worker i plans for backend b. */
  datatype Pending = Pending(ordinal: nat, backend: nat, index: nat)

  predicate Owes(active: map<nat, Task>, p: Pending) {
    && p.ordinal in active
    && var t := active[p.ordinal];
    && t.recipe.Some? && |t.done| == |t.recipe.value.plan| && p.backend < |t.done|
    && |t.done[p.backend]| <= p.index < |t.recipe.value.plan[p.backend]|
  }

  /** All planned blobs of the workers in flight. */
  function Planned(active: map<nat, Task>): set<Pending> {
    set i: nat, b: nat, k: nat | i in active && active[i].recipe.Some? && b < |active[i].recipe.value.plan|
                              && k < |active[i].recipe.value.plan[b]| :: Pending(i, b, k)
  }

  /** Those not uploaded yet. */
  function Outstanding(active: map<nat, Task>): set<Pending> {
    set p | p in Planned(active) && Owes(active, p)
  }

  lemma PutLowers(active: map<nat, Task>, i: nat, b: nat, x: Shard)
    requires i in active && HasNext(active[i], b)
    ensures |Outstanding(active[i := Advance(active[i], b, x)])| < |Outstanding(active)|
  {
    var t := active[i];
    var next := active[i := Advance(t, b, x)];
    var p := Pending(i, b, |t.done[b]|);
    assert p in Planned(active) && Owes(active, p);
    forall q | q in Outstanding(next)
      ensures q in Outstanding(active) && q != p
    {
      assert q in Planned(active);
      assert Owes(active, q);
    }
    SubsetSize(Outstanding(next) + {p}, Outstanding(active));
  }

  /** What every step lowers, compared field by field from the left. */
  datatype Measure = Measure(stage: nat, left: nat, rank: nat, active: nat, plan: nat, todo: nat, queue: nat)

  ghost function MeasureOf(job: Job, s: State): Measure {
    var left, active, plan := Max(0, |job.input| - s.reader.total), |s.work.active|, |Outstanding(s.work.active)|;
    match s.phase
    case Spawning(_) => Measure(3, left, 2, active, plan, 0, 0)
    case Checking => Measure(3, left, 1, active, plan, 0, 0)
    case Reading => Measure(3, left, 0, active, plan, 0, 0)
    case Waiting(_) => Measure(2, left, 0, active, plan, 0, 0)
    case Cleaning(todo, queue) => Measure(1, left, 0, active, plan, |todo|, |queue|)
    case _ => Measure(0, left, 0, active, plan, 0, 0)
  }

  predicate Lower(a: Measure, b: Measure) {
    || a.stage < b.stage
    || (a.stage == b.stage && (a.left < b.left
    || (a.left == b.left && (a.rank < b.rank
    || (a.rank == b.rank && (a.active < b.active
    || (a.active == b.active && (a.plan < b.plan
    || (a.plan == b.plan && (a.todo < b.todo
    || (a.todo == b.todo && a.queue < b.queue)))))))))))
  }

  lemma PutCounts(job: Job, s: State, i: nat, b: nat, location: nat)
    requires CanPut(job, s, i, b, location)
    ensures var t := AfterPut(job, s, i, b, location);
            |t.work.active| == |s.work.active| && |Outstanding(t.work.active)| < |Outstanding(s.work.active)|
  {
    var task := s.work.active[i];
    var x := NextShard(job, task, b, location);
    PutLowers(s.work.active, i, b, x);
    assert s.work.active[i := Advance(task, b, x)].Keys == s.work.active.Keys;
  }

  /** Fewer planned blobs outstanding, all else the same. */
  lemma FewerOutstanding(job: Job, s: State, t: State)
    requires t.phase == s.phase && t.reader == s.reader
    requires |t.work.active| == |s.work.active| && |Outstanding(t.work.active)| < |Outstanding(s.work.active)|
    ensures Lower(MeasureOf(job, t), MeasureOf(job, s))
  {
  }

  lemma UploadProgresses(job: Job, s: State, i: nat, b: nat, location: nat)
    requires CanPut(job, s, i, b, location)
    ensures Lower(MeasureOf(job, AfterPut(job, s, i, b, location)), MeasureOf(job, s))
  {
    PutCounts(job, s, i, b, location);
    FewerOutstanding(job, s, AfterPut(job, s, i, b, location));
  }

  lemma LeavingProgresses(job: Job, s: State, step: Step)
    requires Enabled(job, s, step) && (step.Finish? || step.Abort?)
    ensures Lower(MeasureOf(job, Apply(job, s, step)), MeasureOf(job, s))
  {
    OneLess(s.work.active, step.ordinal);
  }

  lemma ReadProgresses(job: Job, s: State, step: Step)
    requires job.chunkSize > 0 && Enabled(job, s, step) && step.ReadBuffer?
    ensures Lower(MeasureOf(job, Apply(job, s, step)), MeasureOf(job, s))
  {
  }

  lemma LoopProgresses(job: Job, s: State, step: Step)
    requires Enabled(job, s, step) && (step.Check? || step.Spawn? || step.Join?)
    ensures Lower(MeasureOf(job, Apply(job, s, step)), MeasureOf(job, s))
  {
  }

  lemma CleanupProgresses(job: Job, s: State, step: Step)
    requires Enabled(job, s, step) && (step.Pick? || step.Delete? || step.DeleteFails? || step.Finished?)
    ensures Lower(MeasureOf(job, Apply(job, s, step)), MeasureOf(job, s))
  {
  }

  /** Every step of the call lowers a well-founded measure. */
  lemma StepProgresses(job: Job, s: State, step: Step)
    requires job.chunkSize > 0 && Enabled(job, s, step) && !step.Others?
    ensures Lower(MeasureOf(job, Apply(job, s, step)), MeasureOf(job, s))
  {
    match step
    case Put(i, b, location) => UploadProgresses(job, s, i, b, location);
    case Finish(_, _) => LeavingProgresses(job, s, step);
    case Abort(_) => LeavingProgresses(job, s, step);
    case ReadBuffer(_, _) => ReadProgresses(job, s, step);
    case Check => LoopProgresses(job, s, step);
    case Spawn(_) => LoopProgresses(job, s, step);
    case Join => LoopProgresses(job, s, step);
    case _ => CleanupProgresses(job, s, step);
  }

  /** The same state, but for what others did to the disk. */
  predicate SameButDisk(s: State, t: State) {
    t == s.(disk := t.disk)
  }

  /** The n-th step of an unending schedule: taken, or idle once the call has returned. Others may act between any
      two steps. */
  ghost predicate Goes(job: Job, run: nat -> State, steps: nat -> Step, n: nat) {
    || Over(run(n))
    || (&& Enabled(job, run(n), steps(n)) && !steps(n).Others?
        && SameButDisk(Apply(job, run(n), steps(n)), run(n + 1)))
  }

  lemma DiskDoesNotCount(job: Job, s: State, t: State)
    requires SameButDisk(s, t)
    ensures MeasureOf(job, t) == MeasureOf(job, s)
  {
  }

  lemma ScheduleLowers(job: Job, run: nat -> State, steps: nat -> Step, n: nat)
    requires job.chunkSize > 0 && Goes(job, run, steps, n) && !Over(run(n))
    ensures Lower(MeasureOf(job, run(n + 1)), MeasureOf(job, run(n)))
  {
    StepProgresses(job, run(n), steps(n));
    DiskDoesNotCount(job, Apply(job, run(n), steps(n)), run(n + 1));
  }

  /** Every schedule, fair or not, ends the call: it cannot go on forever. */
  lemma {:induction false} EveryRunEnds(job: Job, run: nat -> State, steps: nat -> Step, n: nat) returns (m: nat)
    requires job.chunkSize > 0 && forall i: nat :: Goes(job, run, steps, i)
    ensures m >= n && Over(run(m))
    decreases MeasureOf(job, run(n)).stage, MeasureOf(job, run(n)).left, MeasureOf(job, run(n)).rank,
              MeasureOf(job, run(n)).active, MeasureOf(job, run(n)).plan, MeasureOf(job, run(n)).todo,
              MeasureOf(job, run(n)).queue
  {
    if Over(run(n)) {
      m := n;
    } else {
      assert Goes(job, run, steps, n);
      ScheduleLowers(job, run, steps, n);
      m := EveryRunEnds(job, run, steps, n + 1);
    }
  }
}
