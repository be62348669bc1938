/** Which runs of `ChunkStream` there are: when some run succeeds, and when some failed run leaves a blob behind. */
module PipelineRuns {
  import opened Base
  import opened ErasureCode
  import opened Layout
  import opened Backends
  import opened Sharding
  import opened Planning
  import opened Chunks
  import opened Pipeline
  import opened PipelineResults
  import opened Slices

  // ---------------------------------------------------------------------
  // Putting runs together
  // ---------------------------------------------------------------------

  lemma Cons(job: Job, s: State, step: Step, rest: seq<Step>)
    requires Enabled(job, s, step) && Legal(job, Apply(job, s, step), rest)
    ensures Legal(job, s, [step] + rest) && Final(job, s, [step] + rest) == Final(job, Apply(job, s, step), rest)
  {
    assert ([step] + rest)[1..] == rest;
  }

  lemma OneStep(job: Job, s: State, step: Step)
    requires Enabled(job, s, step)
    ensures Legal(job, s, [step]) && Final(job, s, [step]) == Apply(job, s, step)
  {
    Cons(job, s, step, []);
    assert [step] + [] == [step];
  }

  lemma {:induction false} Append(job: Job, s: State, a: seq<Step>, b: seq<Step>)
    requires Legal(job, s, a) && Legal(job, Final(job, s, a), b)
    ensures Legal(job, s, a + b) && Final(job, s, a + b) == Final(job, Final(job, s, a), b)
    decreases |a|
  {
    if a == [] {
      assert a + b == b;
    } else {
      assert (a + b)[1..] == a[1..] + b;
      Append(job, Apply(job, s, a[0]), a[1..], b);
    }
  }

  /** There is a run of the call's own steps from one state to the other. */
  ghost predicate Leads(job: Job, s: State, t: State) {
    exists steps :: OwnSteps(steps) && Legal(job, s, steps) && Final(job, s, steps) == t
  }

  /** Nobody else acts. */
  predicate OwnSteps(steps: seq<Step>) {
    forall i :: 0 <= i < |steps| ==> !steps[i].Others?
  }

  lemma StepLeads(job: Job, s: State, step: Step)
    requires Enabled(job, s, step) && !step.Others?
    ensures Leads(job, s, Apply(job, s, step))
  {
    OneStep(job, s, step);
    assert OwnSteps([step]);
  }

  lemma StayLeads(job: Job, s: State)
    ensures Leads(job, s, s)
  {
    assert OwnSteps([]) && Legal(job, s, []) && Final(job, s, []) == s;
  }

  lemma ThenLeads(job: Job, s: State, t: State, u: State)
    requires Leads(job, s, t) && Leads(job, t, u)
    ensures Leads(job, s, u)
  {
    var a :| OwnSteps(a) && Legal(job, s, a) && Final(job, s, a) == t;
    var b :| OwnSteps(b) && Legal(job, t, b) && Final(job, t, b) == u;
    Append(job, s, a, b);
    assert OwnSteps(a + b);
  }

  lemma LeadsKeepsInv(job: Job, s: State, t: State)
    requires Leads(job, s, t) && Inv(job, s)
    ensures Inv(job, t)
  {
    var a :| OwnSteps(a) && Legal(job, s, a) && Final(job, s, a) == t;
    RunKeepsInv(job, s, a);
  }

  // ---------------------------------------------------------------------
  // One buffer, from the read to the completed chunk
  // ---------------------------------------------------------------------

  /** No worker is in flight, and none has failed. */
  ghost predicate Quiet(s: State) {
    s.work.active == map[] && s.work.failed == map[]
  }

  /** The only worker in flight has this buffer and this recipe; nothing else is different. */
  ghost predicate Alone(s: State, phase: Phase, total: nat, i: nat, piece: Bytes, r: Recipe) {
    && s.phase == phase && s.reader.total == total && s.work.failed == map[] && s.work.active.Keys == {i}
    && s.work.active[i].piece == piece && s.work.active[i].recipe == Some(r) && !s.deleteFailed
  }

  lemma ReadRun(job: Job, s: State, n: nat, end: ReadEnd) returns (b: State)
    requires Inv(job, s) && Quiet(s) && s.phase.Checking? && n > 0 && CanReadBuffer(job, s.reader, n, end)
    requires !s.deleteFailed
    ensures Leads(job, s, b) && Inv(job, b) && b.phase == Spawning(end) && Quiet(b) && !b.deleteFailed
    ensures s.reader.total + n == b.reader.total <= |job.input| && b.reader.pieces != []
    ensures b.reader.pieces[|b.reader.pieces| - 1] == job.input[s.reader.total..s.reader.total + n]
  {
    var a := Apply(job, s, Check);
    b := Apply(job, a, ReadBuffer(n, end));
    StepLeads(job, s, Check);
    StepLeads(job, a, ReadBuffer(n, end));
    ThenLeads(job, s, a, b);
    LeadsKeepsInv(job, s, b);
  }

  /** n bytes are read and given to a worker. */
  lemma StartRun(job: Job, s: State, n: nat, end: ReadEnd, r: Recipe) returns (t: State, i: nat)
    requires Inv(job, s) && Quiet(s) && s.phase.Checking? && n > 0 && CanReadBuffer(job, s.reader, n, end)
    requires !s.deleteFailed
    requires Follows(job, job.input[s.reader.total..s.reader.total + n], r)
    ensures Leads(job, s, t) && Inv(job, t)
    ensures Alone(t, AfterRead(end), s.reader.total + n, i, job.input[s.reader.total..s.reader.total + n], r)
    ensures t.work.active[i].done == seq(|r.plan|, _ => []) && Owned(t.disk, i) == {}
  {
    var b := ReadRun(job, s, n, end);
    t, i := SpawnRun(job, s, b, n, end, r);
  }

  lemma SpawnRun(job: Job, s: State, b: State, n: nat, end: ReadEnd, r: Recipe) returns (t: State, i: nat)
    requires Inv(job, b) && Leads(job, s, b) && b.phase == Spawning(end) && Quiet(b) && !b.deleteFailed
    requires s.reader.total + n == b.reader.total <= |job.input| && b.reader.pieces != []
    requires b.reader.pieces[|b.reader.pieces| - 1] == job.input[s.reader.total..s.reader.total + n]
    requires Follows(job, job.input[s.reader.total..s.reader.total + n], r)
    ensures Leads(job, s, t) && Inv(job, t)
    ensures Alone(t, AfterRead(end), s.reader.total + n, i, job.input[s.reader.total..s.reader.total + n], r)
    ensures t.work.active[i].done == seq(|r.plan|, _ => []) && Owned(t.disk, i) == {}
  {
    i := |b.reader.pieces| - 1;
    NotKnownYet(job, b);
    t := Apply(job, b, Spawn(Some(r)));
    StepLeads(job, b, Spawn(Some(r)));
    ThenLeads(job, s, b, t);
    StepKeepsInv(job, b, Spawn(Some(r)));
  }

  lemma NotKnownYet(job: Job, s: State)
    requires Inv(job, s) && s.phase.Spawning?
    ensures s.reader.pieces != [] && Owned(s.disk, |s.reader.pieces| - 1) == {}
  {
    NotOwnedYet(job, s.work, s.disk, |s.reader.pieces| - 1);
  }

  lemma PutStaysAlone(job: Job, s: State, phase: Phase, total: nat, i: nat, piece: Bytes, r: Recipe, b: nat,
                      location: nat)
    requires Alone(s, phase, total, i, piece, r) && CanPut(job, s, i, b, location)
    ensures var t := AfterPut(job, s, i, b, location);
            && Alone(t, phase, total, i, piece, r) && t.work.completed == s.work.completed && Owned(t.disk, i) != {}
            && t.work.active[i].done
               == Extend(s.work.active[i].done, b, NextShard(job, s.work.active[i], b, location))
  {
    var t := AfterPut(job, s, i, b, location);
    assert AddressOf(NextShard(job, s.work.active[i], b, location)) in Owned(t.disk, i);
  }

  lemma PutRun(job: Job, s: State, i: nat, b: nat, location: nat)
    requires Inv(job, s) && CanPut(job, s, i, b, location)
    ensures var t := AfterPut(job, s, i, b, location); Leads(job, s, t) && Inv(job, t)
  {
    PutStepKeepsInv(job, s, i, b, location);
    StepLeads(job, s, Put(i, b, location));
  }

  lemma PutBackend(job: Job, s: State, i: nat) returns (b: nat, location: nat)
    requires Inv(job, s) && i in s.work.active && s.work.active[i].recipe.Some? && !Uploads(s.work.active[i])
    ensures CanPut(job, s, i, b, location)
  {
    WorkerOk(job, s, i);
    var t := s.work.active[i];
    b :| 0 <= b < |t.done| && |t.done[b]| != |t.recipe.value.plan[b]|;
    location := NameAbove(s.disk.used);
  }

  /** The lone worker uploads its next blob. */
  lemma OneUpload(job: Job, s: State, phase: Phase, total: nat, i: nat, piece: Bytes, r: Recipe) returns (t: State)
    requires Inv(job, s) && Alone(s, phase, total, i, piece, r) && !Uploads(s.work.active[i])
    ensures Leads(job, s, t) && Inv(job, t) && Alone(t, phase, total, i, piece, r)
    ensures |Outstanding(t.work.active)| < |Outstanding(s.work.active)|
    ensures t.work.completed == s.work.completed && Owned(t.disk, i) != {}
    ensures |Flatten(t.work.active[i].done)| == |Flatten(s.work.active[i].done)| + 1
  {
    var b, location := PutBackend(job, s, i);
    t := AfterPut(job, s, i, b, location);
    PutRun(job, s, i, b, location);
    PutStaysAlone(job, s, phase, total, i, piece, r, b, location);
    PutCounts(job, s, i, b, location);
    ExtendLength(s.work.active[i].done, b, NextShard(job, s.work.active[i], b, location));
  }

  /** The lone worker uploads all it planned. */
  lemma {:induction false} AllUploads(job: Job, s: State, phase: Phase, total: nat, i: nat, piece: Bytes, r: Recipe)
    returns (t: State)
    requires Inv(job, s) && Alone(s, phase, total, i, piece, r)
    ensures Leads(job, s, t) && Inv(job, t) && Alone(t, phase, total, i, piece, r) && Uploads(t.work.active[i])
    ensures t.work.completed == s.work.completed
    decreases |Outstanding(s.work.active)|
  {
    if Uploads(s.work.active[i]) {
      t := s;
      StayLeads(job, s);
    } else {
      var u := OneUpload(job, s, phase, total, i, piece, r);
      t := AllUploads(job, u, phase, total, i, piece, r);
      ThenLeads(job, s, u, t);
    }
  }

  /** The lone worker returns its chunk. */
  lemma FinishRun(job: Job, s: State, phase: Phase, total: nat, i: nat, piece: Bytes, r: Recipe) returns (t: State)
    requires Inv(job, s) && Alone(s, phase, total, i, piece, r) && Uploads(s.work.active[i])
    ensures Leads(job, s, t) && Inv(job, t) && Quiet(t) && t.phase == phase && t.reader.total == total
    ensures !t.deleteFailed
  {
    WorkerOk(job, s, i);
    t := Apply(job, s, Finish(i, 0));
    StepLeads(job, s, Finish(i, 0));
    StepKeepsInv(job, s, Finish(i, 0));
    assert t.work.active == map[];
  }

  lemma RoundRun(job: Job, s: State, n: nat, end: ReadEnd, r: Recipe) returns (t: State)
    requires Inv(job, s) && Quiet(s) && s.phase.Checking? && n > 0 && CanReadBuffer(job, s.reader, n, end)
    requires !s.deleteFailed
    requires Follows(job, job.input[s.reader.total..s.reader.total + n], r)
    ensures Leads(job, s, t) && Inv(job, t) && Quiet(t) && !t.deleteFailed
    ensures t.phase == AfterRead(end) && t.reader.total == s.reader.total + n
  {
    var piece := job.input[s.reader.total..s.reader.total + n];
    var a, i := StartRun(job, s, n, end, r);
    var b := AllUploads(job, a, AfterRead(end), s.reader.total + n, i, piece, r);
    t := FinishRun(job, b, AfterRead(end), s.reader.total + n, i, piece, r);
    ThenLeads(job, s, a, b);
    ThenLeads(job, s, b, t);
  }

  // ---------------------------------------------------------------------
  // A run that succeeds
  // ---------------------------------------------------------------------

  ghost predicate Packs(job: Job, piece: Bytes) {
    exists key :: Packable(job.sys, job.limits, piece, job.comp, job.encryption, key)
  }

  /** A worker finds a recipe for a piece exactly if the libraries take it. */
  lemma RecipeIff(job: Job, piece: Bytes)
    requires Ready(job)
    ensures (exists r :: Follows(job, piece, r)) <==> Packs(job, piece)
  {
    if Packs(job, piece) {
      var any :| Packable(job.sys, job.limits, piece, job.comp, job.encryption, any);
      var sys, key := job.sys, if job.encryption.NoEncryption? then 0 else any;
      var compressed := sys.codec.compress(piece, job.comp).value;
      var encrypted := sys.codec.encrypt(compressed, job.encryption, key).value;
      var size :| SizeFor(job.limits, sys.backends, |encrypted|, size)
               && Accepts(sys.code, sys.tolerance, |sys.backends|, |encrypted|, size);
      var plan := PlanExists(sys.code, sys.tolerance, job.limits, sys.backends, encrypted, size);
      assert Follows(job, piece, Recipe(key, compressed, encrypted, size, plan));
    }
    if r :| Follows(job, piece, r) {
      assert Encodable(job.sys.code, job.sys.tolerance, job.limits, job.sys.backends, |r.encrypted|);
      assert Packable(job.sys, job.limits, piece, job.comp, job.encryption, r.key);
    }
  }

  /** Every slice of the data can be packed. */
  ghost predicate AllPack(job: Job, data: Bytes)
    requires job.chunkSize > 0
  {
    forall i :: 0 <= i < |Chop(data, job.chunkSize)| ==> Packs(job, Chop(data, job.chunkSize)[i])
  }

  lemma NextPacks(job: Job, at: nat)
    requires job.chunkSize > 0 && at < |job.input| && AllPack(job, job.input[at..])
    ensures var n := Min(job.chunkSize, |job.input| - at);
            Packs(job, job.input[at..at + n]) && AllPack(job, job.input[at + n..])
  {
    var rest, n := job.input[at..], Min(job.chunkSize, |job.input| - at);
    var slices := Chop(rest, job.chunkSize);
    assert rest[..n] == job.input[at..at + n] && rest[n..] == job.input[at + n..];
    assert slices[0] == rest[..n] && slices[1..] == Chop(rest[n..], job.chunkSize);
    assert Packs(job, slices[0]);
    forall i | 0 <= i < |slices| - 1
      ensures Packs(job, slices[1..][i])
    {
      assert Packs(job, slices[i + 1]);
    }
  }

  function NextEnd(job: Job, left: nat): ReadEnd {
    if left >= job.chunkSize then Full else EndOfInput
  }

  /** The next buffer, and a recipe for it. */
  lemma NextBuffer(job: Job, r: Reader) returns (n: nat, recipe: Recipe)
    requires Ready(job) && r.total < |job.input| && AllPack(job, job.input[r.total..])
    ensures n == Min(job.chunkSize, |job.input| - r.total) && n > 0
    ensures CanReadBuffer(job, r, n, NextEnd(job, |job.input| - r.total))
    ensures Follows(job, job.input[r.total..r.total + n], recipe)
  {
    n := Min(job.chunkSize, |job.input| - r.total);
    NextPacks(job, r.total);
    recipe := SomeRecipe(job, job.input[r.total..r.total + n]);
  }

  lemma SliceRun(job: Job, s: State) returns (t: State)
    requires Inv(job, s) && Quiet(s) && s.phase.Checking? && !s.deleteFailed && s.reader.total < |job.input|
    requires AllPack(job, job.input[s.reader.total..])
    ensures Leads(job, s, t) && Inv(job, t) && Quiet(t) && !t.deleteFailed
    ensures var left := |job.input| - s.reader.total;
            && t.phase == AfterRead(NextEnd(job, left)) && t.reader.total == s.reader.total + Min(job.chunkSize, left)
  {
    var n, recipe := NextBuffer(job, s.reader);
    var end := NextEnd(job, |job.input| - s.reader.total);
    t := RoundRun(job, s, n, end, recipe);
  }

  /** The next slice is stored, and what is left can still be packed. */
  lemma PackedSliceRun(job: Job, s: State) returns (t: State)
    requires Inv(job, s) && Quiet(s) && s.phase.Checking? && !s.deleteFailed && s.reader.total < |job.input|
    requires AllPack(job, job.input[s.reader.total..])
    ensures Leads(job, s, t) && Inv(job, t) && Quiet(t) && !t.deleteFailed
    ensures s.reader.total < t.reader.total <= |job.input| && AllPack(job, job.input[t.reader.total..])
    ensures t.phase.Checking? || t.phase == Waiting(AtEnd)
  {
    NextPacks(job, s.reader.total);
    t := SliceRun(job, s);
  }

  lemma SomeRecipe(job: Job, piece: Bytes) returns (r: Recipe)
    requires Ready(job) && Packs(job, piece)
    ensures Follows(job, piece, r)
  {
    RecipeIff(job, piece);
    r :| Follows(job, piece, r);
  }

  lemma JoinRun(job: Job, s: State) returns (t: State)
    requires Quiet(s) && s.phase == Waiting(AtEnd)
    ensures Leads(job, s, t) && t.phase.Succeeded?
  {
    t := Apply(job, s, Join);
    StepLeads(job, s, Join);
  }

  lemma EndRun(job: Job, s: State) returns (t: State)
    requires job.chunkSize > 0 && Quiet(s) && s.phase.Checking? && s.reader.total == |job.input|
    ensures Leads(job, s, t) && t.phase.Succeeded?
  {
    var a := Apply(job, s, Check);
    var b := Apply(job, a, ReadBuffer(0, EndOfInput));
    StepLeads(job, s, Check);
    StepLeads(job, a, ReadBuffer(0, EndOfInput));
    ThenLeads(job, s, a, b);
    t := JoinRun(job, b);
    ThenLeads(job, s, b, t);
  }

  lemma {:induction false} SucceedFrom(job: Job, s: State) returns (t: State)
    requires Inv(job, s) && Quiet(s) && s.phase.Checking? && !s.deleteFailed
    requires s.reader.total <= |job.input| && AllPack(job, job.input[s.reader.total..])
    ensures Leads(job, s, t) && t.phase.Succeeded?
    decreases |job.input| - s.reader.total
  {
    if s.reader.total == |job.input| {
      t := EndRun(job, s);
    } else {
      var u := PackedSliceRun(job, s);
      if u.phase.Checking? {
        t := SucceedFrom(job, u);
      } else {
        t := JoinRun(job, u);
      }
      ThenLeads(job, s, u, t);
    }
  }

  /** Whatever the input, if the libraries take its slices, the call can succeed. */
  lemma SomeRunSucceeds(job: Job, blobs: Blobs) returns (steps: seq<Step>)
    requires Ready(job) && blobs.Keys <= job.used && AllPack(job, job.input)
    ensures Legal(job, Init(job, blobs), steps) && Final(job, Init(job, blobs), steps).phase.Succeeded?
    ensures OwnSteps(steps)
  {
    StartsWell(job, blobs);
    assert job.input[0..] == job.input;
    var t := SucceedFrom(job, Init(job, blobs));
    steps :| OwnSteps(steps) && Legal(job, Init(job, blobs), steps) && Final(job, Init(job, blobs), steps) == t;
  }

  // ---------------------------------------------------------------------
  // A run that fails and leaves a blob behind
  // ---------------------------------------------------------------------

  /** The call has failed, every delete of the cleanup has succeeded, and a blob of its own is still there. */
  ghost predicate Leaks(s: State) {
    s.phase.Failed? && !s.deleteFailed && !(Own(s.disk) !! s.disk.blobs.Keys)
  }

  /** A lone worker that plans at least two blobs stores one and fails on the next. */
  lemma AbortRun(job: Job, s: State, phase: Phase, total: nat, i: nat, piece: Bytes, r: Recipe) returns (t: State)
    requires Inv(job, s) && Alone(s, phase, total, i, piece, r) && Count(r.plan) >= 2
    requires s.work.active[i].done == seq(|r.plan|, _ => [])
    ensures Leads(job, s, t) && Inv(job, t) && !t.deleteFailed
    ensures t.phase == phase && t.work.active == map[] && i in t.work.failed && Owned(t.disk, i) != {}
  {
    NothingYet(|r.plan|);
    NotAll(r.plan, s.work.active[i].done);
    var u := OneUpload(job, s, phase, total, i, piece, r);
    NotAll(r.plan, u.work.active[i].done);
    t := GiveUp(job, u, i);
    ThenLeads(job, s, u, t);
  }

  lemma GiveUp(job: Job, s: State, i: nat) returns (t: State)
    requires Inv(job, s) && s.work.active.Keys == {i} && !Uploads(s.work.active[i]) && !s.deleteFailed
    ensures Leads(job, s, t) && Inv(job, t) && !t.deleteFailed
    ensures t.phase == s.phase && t.work.active == map[] && i in t.work.failed && t.disk == s.disk
  {
    t := Apply(job, s, Abort(i));
    StepLeads(job, s, Abort(i));
    StepKeepsInv(job, s, Abort(i));
    assert t.work.active == map[];
  }

  lemma {:induction false} AllMeansCount(plan: seq<seq<RawShard>>, done: seq<seq<Shard>>)
    requires AllUploaded(plan, done)
    ensures |Flatten(done)| == Count(plan)
  {
    if plan != [] {
      AllMeansCount(plan[1..], done[1..]);
    }
  }

  lemma NotAll(plan: seq<seq<RawShard>>, done: seq<seq<Shard>>)
    requires |Flatten(done)| < Count(plan)
    ensures !AllUploaded(plan, done)
  {
    if AllUploaded(plan, done) {
      AllMeansCount(plan, done);
    }
  }

  /** Cleanup in which every delete succeeds. */
  ghost predicate Clean(s: State) {
    && s.phase.Cleaning? && !s.deleteFailed && |Addresses(s.phase.queue)| == |s.phase.queue|
    && Addresses(s.phase.queue) <= s.disk.blobs.Keys && s.phase.todo <= s.work.completed.Keys
    && forall i :: i in s.phase.todo ==>
         Refs(s.work.completed[i]) <= s.disk.blobs.Keys && Refs(s.work.completed[i]) !! Addresses(s.phase.queue)
  }

  /** What cleanup does not change. */
  ghost predicate SameWork(s: State, t: State) {
    t.work == s.work && t.disk.owned == s.disk.owned
  }

  lemma DeleteRun(job: Job, s: State) returns (t: State)
    requires Inv(job, s) && Clean(s) && s.phase.queue != []
    ensures Leads(job, s, t) && Inv(job, t) && Clean(t) && SameWork(s, t)
    ensures t.phase.todo == s.phase.todo && |t.phase.queue| < |s.phase.queue|
  {
    var x := s.phase.queue[0];
    assert AddressOf(x) in Addresses(s.phase.queue);
    t := Apply(job, s, Delete);
    StepLeads(job, s, Delete);
    StepKeepsInv(job, s, Delete);
    AddressesTail(s.phase.queue);
  }

  lemma PickRun(job: Job, s: State) returns (t: State)
    requires Inv(job, s) && Clean(s) && s.phase.queue == [] && s.phase.todo != {}
    ensures Leads(job, s, t) && Inv(job, t) && Clean(t) && SameWork(s, t) && |t.phase.todo| < |s.phase.todo|
  {
    var i :| i in s.phase.todo;
    t := Apply(job, s, Pick(i));
    StepLeads(job, s, Pick(i));
    StepKeepsInv(job, s, Pick(i));
    assert ChunkOk(s.disk, i, s.work.completed[i]);
    forall j | j in t.phase.todo
      ensures Refs(t.work.completed[j]) !! Addresses(t.phase.queue)
    {
      assert ChunkOk(s.disk, j, s.work.completed[j]);
    }
  }

  lemma {:induction false} CleanRun(job: Job, s: State) returns (t: State)
    requires Inv(job, s) && Clean(s)
    ensures Leads(job, s, t) && Inv(job, t) && SameWork(s, t) && t.phase.Failed? && !t.deleteFailed
    decreases |s.phase.todo|, |s.phase.queue|
  {
    if s.phase.queue != [] {
      var u := DeleteRun(job, s);
      t := CleanRun(job, u);
      ThenLeads(job, s, u, t);
    } else if s.phase.todo != {} {
      var u := PickRun(job, s);
      t := CleanRun(job, u);
      ThenLeads(job, s, u, t);
    } else {
      t := Apply(job, s, Finished);
      StepLeads(job, s, Finished);
      StepKeepsInv(job, s, Finished);
    }
  }

  /** After the only worker has failed, the call waits, cleans up and fails. */
  lemma FailRun(job: Job, s: State, i: nat) returns (t: State)
    requires Inv(job, s) && s.work.active == map[] && i in s.work.failed && Owned(s.disk, i) != {} && !s.deleteFailed
    requires s.phase.Checking? || s.phase.Waiting?
    ensures Leads(job, s, t) && Leaks(t)
  {
    var a := s;
    StayLeads(job, s);
    if s.phase.Checking? {
      a := Apply(job, s, Check);
      StepLeads(job, s, Check);
      StepKeepsInv(job, s, Check);
    }
    assert a.work.failed != map[] && a.phase.Waiting?;
    var b := Apply(job, a, Join);
    StepLeads(job, a, Join);
    StepKeepsInv(job, a, Join);
    CleanStarts(job, a, b);
    t := CleanRun(job, b);
    ThenLeads(job, s, a, b);
    ThenLeads(job, s, b, t);
    FailedStays(job, t, i);
    OwnedIsOwn(t.disk, i);
  }

  lemma CleanStarts(job: Job, a: State, b: State)
    requires Inv(job, a) && a.phase.Waiting? && a.work.failed != map[] && Enabled(job, a, Join)
    requires b == Apply(job, a, Join)
    ensures Clean(b)
  {
    forall i | i in b.work.completed
      ensures Refs(b.work.completed[i]) <= b.disk.blobs.Keys
    {
      assert EndedOk(a.reader.pieces, a.work, i);
      assert Produced(job, a.disk, a.work.completed[i], a.reader.pieces[i]);
    }
    assert Addresses([]) == {};
  }

  /** A buffer the reader may fill: it begins at a multiple of the chunk size, and is full or cut short. */
  predicate Buffer(job: Job, at: nat, n: nat) {
    job.chunkSize > 0 && at % job.chunkSize == 0 && 0 < n <= job.chunkSize && at + n <= |job.input|
  }

  /** A buffer that some worker may pack into at least two blobs. */
  ghost predicate Splits(job: Job, at: nat, n: nat) {
    Buffer(job, at, n) && InTwo(job, job.input[at..at + n])
  }

  ghost predicate InTwo(job: Job, piece: Bytes) {
    exists r :: Follows(job, piece, r) && Count(r.plan) >= 2
  }

  lemma LeakAt(job: Job, s: State, n: nat) returns (t: State)
    requires Inv(job, s) && Quiet(s) && s.phase.Checking? && !s.deleteFailed && Splits(job, s.reader.total, n)
    ensures Leads(job, s, t) && Leaks(t)
  {
    var at := s.reader.total;
    var r :| Follows(job, job.input[at..at + n], r) && Count(r.plan) >= 2;
    var end := if n == job.chunkSize then Full else Fault;
    var a, i := StartRun(job, s, n, end, r);
    var b := AbortRun(job, a, AfterRead(end), at + n, i, job.input[at..at + n], r);
    t := FailRun(job, b, i);
    ThenLeads(job, s, a, b);
    ThenLeads(job, s, b, t);
  }

  lemma NextMultiple(at: nat, to: nat, size: nat)
    requires size > 0 && at % size == 0 && to % size == 0 && at < to
    ensures at + size <= to && (at + size) % size == 0
  {
    var a, b := at / size, to / size;
    assert at == size * a && to == size * b;
    if b <= a {
      MulMonotone(size, b, a);
    }
    MulMonotone(size, a + 1, b);
    MulAdd(a, 1, size);
    DivUnique(at + size, size, a + 1, 0);
  }

  /** The reader is at a multiple of the chunk size, at most `at`, and the rest can be packed. */
  ghost predicate Before(job: Job, s: State, at: nat) {
    && Quiet(s) && s.phase.Checking? && !s.deleteFailed && job.chunkSize > 0
    && s.reader.total <= at <= |job.input| && s.reader.total % job.chunkSize == 0
    && AllPack(job, job.input[s.reader.total..])
  }

  lemma StillBefore(job: Job, s: State, t: State, at: nat)
    requires Before(job, s, at) && at % job.chunkSize == 0 && s.reader.total < at
    requires Quiet(t) && t.phase.Checking? && !t.deleteFailed && t.reader.total == s.reader.total + job.chunkSize
    ensures Before(job, t, at)
  {
    NextMultiple(s.reader.total, at, job.chunkSize);
    NextPacks(job, s.reader.total);
  }

  /** One more whole buffer is stored. */
  lemma FullRun(job: Job, s: State, at: nat) returns (t: State)
    requires Inv(job, s) && Before(job, s, at) && at % job.chunkSize == 0 && s.reader.total < at
    ensures Leads(job, s, t) && Inv(job, t) && Before(job, t, at) && t.reader.total > s.reader.total
  {
    NextMultiple(s.reader.total, at, job.chunkSize);
    t := SliceRun(job, s);
    StillBefore(job, s, t, at);
  }

  lemma {:induction false} LeakFrom(job: Job, s: State, at: nat, n: nat) returns (t: State)
    requires Inv(job, s) && Splits(job, at, n) && Before(job, s, at)
    ensures Leads(job, s, t) && Leaks(t)
    decreases at - s.reader.total
  {
    if s.reader.total == at {
      t := LeakAt(job, s, n);
    } else {
      var u := FullRun(job, s, at);
      t := LeakFrom(job, u, at, n);
      ThenLeads(job, s, u, t);
    }
  }

  // ---------------------------------------------------------------------
  // Exactly when that can happen
  // ---------------------------------------------------------------------

  lemma PieceIsBuffer(job: Job, r: Reader, i: nat) returns (at: nat, n: nat)
    requires Ready(job) && ReaderInv(job, r) && i < |r.pieces|
    ensures Buffer(job, at, n) && r.pieces[i] == job.input[at..at + n]
  {
    var k := |r.pieces| - 1;
    var before, piece := r.pieces[..i], r.pieces[i];
    forall j | 0 <= j < i
      ensures |before[j]| == job.chunkSize
    {
      assert r.pieces[..k][j] == r.pieces[j];
    }
    assert i < k ==> r.pieces[..k][i] == r.pieces[i];
    FlattenLength(before, job.chunkSize);
    assert r.pieces == before + [piece] + r.pieces[i + 1..];
    FlattenSnoc(before, piece);
    FlattenAppend(before + [piece], r.pieces[i + 1..]);
    DivUnique(i * job.chunkSize, job.chunkSize, i, 0);
    CutOut(job.input, r.total, Flatten(before), piece, Flatten(r.pieces[i + 1..]));
    at, n := i * job.chunkSize, |piece|;
  }

  lemma CutOut(input: Bytes, total: nat, before: Bytes, piece: Bytes, after: Bytes)
    requires total <= |input| && input[..total] == before + piece + after
    ensures |before| + |piece| <= |input| && piece == input[|before|..|before| + |piece|]
  {
    assert input[|before|..|before| + |piece|] == input[..total][|before|..|before| + |piece|];
  }

  /** A run that leaks had a worker with at least two blobs to store. */
  lemma LeakSplits(job: Job, s: State) returns (at: nat, n: nat)
    requires Inv(job, s) && Leaks(s)
    ensures Splits(job, at, n)
  {
    var i := LeakingWorker(job, s);
    FailedSplits(job, s, i);
    at, n := SplitsAt(job, s.reader, i);
  }

  lemma SplitsAt(job: Job, r: Reader, i: nat) returns (at: nat, n: nat)
    requires Ready(job) && ReaderInv(job, r) && i < |r.pieces| && InTwo(job, r.pieces[i])
    ensures Splits(job, at, n)
  {
    at, n := PieceIsBuffer(job, r, i);
  }

  lemma LeakingWorker(job: Job, s: State) returns (i: nat)
    requires Inv(job, s) && Leaks(s)
    ensures i in s.work.failed && Owned(s.disk, i) != {}
  {
    var a :| a in Own(s.disk) && a in s.disk.blobs;
    LeftoversOf(job, s, a);
    i :| i in s.work.failed && a in Owned(s.disk, i);
  }

  /** A failed worker that stored something has planned at least two blobs. */
  lemma FailedSplits(job: Job, s: State, i: nat)
    requires Inv(job, s) && i in s.work.failed && Owned(s.disk, i) != {}
    ensures i < |s.reader.pieces| && InTwo(job, s.reader.pieces[i])
  {
    FailedPiece(job, s, i);
    FailedStays(job, s, i);
    var task := s.work.failed[i];
    if Count(task.recipe.value.plan) <= 1 {
      OneBlobLeavesNothing(job, s, i);
    }
    FailedFollows(job, s, i);
  }

  lemma FailedFollows(job: Job, s: State, i: nat)
    requires Inv(job, s) && i in s.work.failed && s.work.failed[i].recipe.Some?
    ensures Follows(job, s.work.failed[i].piece, s.work.failed[i].recipe.value)
  {
    assert TaskOk(job, s.disk, i, s.work.failed[i]);
  }

  lemma FailedPiece(job: Job, s: State, i: nat)
    requires Inv(job, s) && i in s.work.failed
    ensures i < |s.reader.pieces| && s.work.failed[i].piece == s.reader.pieces[i]
  {
    assert EndedOk(s.reader.pieces, s.work, i);
  }

  /** Some run fails and leaves a blob behind, every delete of its cleanup having succeeded. */
  ghost predicate CanLeak(job: Job, blobs: Blobs) {
    exists steps :: Legal(job, Init(job, blobs), steps) && Leaks(Final(job, Init(job, blobs), steps))
  }

  lemma LeakNeedsSplit(job: Job, blobs: Blobs, steps: seq<Step>) returns (at: nat, n: nat)
    requires Ready(job) && blobs.Keys <= job.used && Legal(job, Init(job, blobs), steps)
    requires Leaks(Final(job, Init(job, blobs), steps))
    ensures Splits(job, at, n)
  {
    Reachable(job, blobs, steps);
    at, n := LeakSplits(job, Final(job, Init(job, blobs), steps));
  }

  lemma SplitCanLeak(job: Job, blobs: Blobs, at: nat, n: nat)
    requires Ready(job) && blobs.Keys <= job.used && AllPack(job, job.input) && Splits(job, at, n)
    ensures CanLeak(job, blobs)
  {
    StartsWell(job, blobs);
    var s := Init(job, blobs);
    assert job.input[0..] == job.input;
    assert 0 % job.chunkSize == 0;
    var t := LeakFrom(job, s, at, n);
    var steps :| OwnSteps(steps) && Legal(job, s, steps) && Final(job, s, steps) == t;
  }

  /** For input that the libraries take, a failed call can leave a blob behind if and only if some buffer may be
      packed into at least two blobs. */
  lemma LeakIff(job: Job, blobs: Blobs)
    requires Ready(job) && blobs.Keys <= job.used && AllPack(job, job.input)
    ensures CanLeak(job, blobs) <==> exists at: nat, n: nat :: Splits(job, at, n)
  {
    if CanLeak(job, blobs) {
      var steps :| Legal(job, Init(job, blobs), steps) && Leaks(Final(job, Init(job, blobs), steps));
      var at, n := LeakNeedsSplit(job, blobs, steps);
      assert Splits(job, at, n);
    }
    if at: nat, n: nat :| Splits(job, at, n) {
      SplitCanLeak(job, blobs, at, n);
    }
  }

  // ---------------------------------------------------------------------
  // With a positive tolerance it always can
  // ---------------------------------------------------------------------

  lemma FirstBlocks(total: nat, n: nat, i: nat)
    requires n >= 2 && total >= 2 && i < 2
    ensures BlockStart(total, n, i) < BlockStart(total, n, i + 1)
  {
    BlockStep(total, n, i);
    if total < n {
      DivUnique(total, n, 0, total);
    }
  }

  lemma FlattenAtLeast(a: seq<RawShard>, b: seq<RawShard>, rest: seq<seq<RawShard>>)
    ensures Count([a, b] + rest) >= |a| + |b|
  {
    var plan := [a, b] + rest;
    assert plan[1..] == [b] + rest && ([b] + rest)[1..] == rest;
    assert Flatten([b] + rest) == b + Flatten(rest);
  }

  /** Where a failure is to be survived, there are at least two segments on at least two backends. */
  lemma TolerantPlanSplits(code: Code, f: int, limits: map<BackendId, nat>, backends: seq<BackendId>, data: Bytes,
                           size: nat, plan: seq<seq<RawShard>>)
    requires IsMDS(code) && f >= 1 && PlanOk(code, f, limits, backends, data, size, plan)
    ensures Count(plan) >= 2
  {
    var n, rows := |backends|, Rows(code, f, |backends|, data, size);
    SegmentsCount(data, size);
    RowsShape(code, f, n, data, size);
    CeilDivBounds(|data|, size);
    CeilDivBounds(|Segments(data, size)|, n - f);
    MulMonotone(f, 1, CeilDiv(|Segments(data, size)|, n - f));
    forall i: nat | i < 2
      ensures plan[i] != []
    {
      FirstBlocks(|rows|, n, i);
      assert Merged(code, f, limits, backends, data, size, plan, i);
    }
    FlattenAtLeast(plan[0], plan[1], plan[2..]);
    assert plan == [plan[0], plan[1]] + plan[2..];
  }

  /** So with a positive tolerance, every input that is not empty and that the libraries take can leave a blob behind:
      one upload, and then a failure. */
  lemma ToleranceLeaks(job: Job, blobs: Blobs)
    requires Ready(job) && blobs.Keys <= job.used && job.input != [] && AllPack(job, job.input)
    requires job.sys.tolerance >= 1
    ensures CanLeak(job, blobs)
  {
    assert job.input[0..] == job.input;
    var n, r := NextBuffer(job, Reader([], 0, []));
    TolerantPlanSplits(job.sys.code, job.sys.tolerance, job.limits, job.sys.backends, r.encrypted, r.size, r.plan);
    assert 0 % job.chunkSize == 0;
    SplitCanLeak(job, blobs, 0, n);
  }
}
