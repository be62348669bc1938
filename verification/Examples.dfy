/** A small system, and that what is said about runs is said of some. */
module Examples {
  import opened Base
  import opened Parity
  import opened SegmentSize
  import opened Backends
  import opened Sharding
  import opened Chunks
  import opened Schema
  import opened Metadata
  import opened ObjectStore
  import opened References
  import opened Concurrent
  import XorCode
  import Pipeline
  import PipelineResults
  import Slices
  import PipelineRuns

  /** Two backends, one of which may fail. */
  function ExampleSystem(): System {
    System(XorCode.Xor(), PlainCodec(), ["a", "b"], 1)
  }

  /** The data in one chunk, on backends that take blobs of that size. */
  function ExampleJob(data: Bytes): Pipeline.Job {
    Pipeline.Job(ExampleSystem(), map["a" := |data|, "b" := |data|], data, |data|, 1, Compression(KIND, 3),
                 NoEncryption, {})
  }

  lemma ExampleEncodes(data: Bytes)
    requires 0 < |data| <= MAX_INT
    ensures var job := ExampleJob(data);
            Encodable(job.sys.code, job.sys.tolerance, job.limits, job.sys.backends, |data|)
  {
    var job, n := ExampleJob(data), |data|;
    CeilDivUnique(n, n, 1);
    assert NeededParity(2, 1, 1) == 1;
    assert "a" in job.sys.backends && LeastLimit(job.limits, job.sys.backends, n) && Chosen(n, n, n);
    assert SizeFor(job.limits, job.sys.backends, n, n) && Accepts(job.sys.code, 1, 2, n, n);
  }

  lemma ExampleIsOneChunk(data: Bytes)
    requires data != []
    ensures Slices.Chop(data, |data|) == [data]
  {
    assert data[..|data|] == data && data[|data|..] == [];
    assert Slices.Chop([], |data|) == [];
  }

  lemma ExamplePacks(data: Bytes)
    requires 0 < |data| <= MAX_INT
    ensures PipelineRuns.Packs(ExampleJob(data), data)
  {
    ExampleEncodes(data);
    var job := ExampleJob(data);
    assert Packable(job.sys, job.limits, data, job.comp, job.encryption, 0);
  }

  lemma ExampleIsReady(data: Bytes)
    requires 0 < |data| <= MAX_INT
    ensures Pipeline.Ready(ExampleJob(data)) && PipelineRuns.AllPack(ExampleJob(data), data)
  {
    ConfiguredIsPossible();
    ExampleIsOneChunk(data);
    ExamplePacks(data);
  }

  /** Some run of the pipeline streams the data into an empty store. */
  lemma ExampleStream(data: Bytes) returns (steps: seq<Pipeline.Step>)
    requires 0 < |data| <= MAX_INT
    ensures var job := ExampleJob(data);
            && PipelineRuns.OwnSteps(steps) && Pipeline.Legal(job, Pipeline.Init(job, map[]), steps)
            && ExampleDone(data, Pipeline.Final(job, Pipeline.Init(job, map[]), steps))
  {
    ExampleIsReady(data);
    var job := ExampleJob(data);
    steps := PipelineRuns.SomeRunSucceeds(job, map[]);
    Pipeline.Reachable(job, map[], steps);
    ExampleResult(data, Pipeline.Final(job, Pipeline.Init(job, map[]), steps));
  }

  /** The stream has succeeded with one chunk that holds the data. */
  ghost predicate ExampleDone(data: Bytes, s: Pipeline.State) {
    var chunks := PipelineResults.Result(s);
    && s.phase.Succeeded? && s.reader.digest == data
    && AllWellFormed(chunks) && Intact(ExampleSystem(), s.disk.blobs, chunks, data)
    && |chunks| == 1 && chunks[0].encryption == NoEncryption
  }

  lemma ExampleResult(data: Bytes, s: Pipeline.State)
    requires data != [] && Pipeline.Inv(ExampleJob(data), s) && s.phase.Succeeded?
    ensures ExampleDone(data, s)
  {
    ExampleIsOneChunk(data);
    SucceededIsHeld(ExampleJob(data), s);
    PipelineResults.SucceededIsComplete(ExampleJob(data), s);
    var chunks := PipelineResults.Result(s);
    assert Pipeline.Produced(ExampleJob(data), s.disk, chunks[0], Slices.Chop(data, |data|)[0]);
  }

  /** The data is uploaded and put under the key. */
  function ExampleRun(k: ObjectKey, data: Bytes, chunks: seq<Chunk>, blobs: Blobs): seq<Step> {
    [Upload(blobs, {}), Put(k, data, 3, chunks)]
  }

  lemma ExamplePut(digest: Bytes -> nat, k: ObjectKey, data: Bytes, chunks: seq<Chunk>, blobs: Blobs,
                   used: set<Address>)
    requires AllWellFormed(chunks) && Intact(ExampleSystem(), blobs, chunks, data)
    requires |chunks| == 1 && chunks[0].encryption == NoEncryption
    ensures var env, s := Env(ExampleSystem(), digest), Store(NO_TABLES, blobs, used);
            Enabled(env, s, Put(k, data, 3, chunks)) && Succeeds(env, s, Put(k, data, 3, chunks))
  {
    EmptyIsConsistent();
    PutObjectConsistent(NO_TABLES, map[], k, ObjectRow(digest(data), |data|, Compression(KIND, 3)), chunks);
    assert Storable(DeleteChunksOf(NO_TABLES, OfObject(k)), chunks);
    UnlistedIff(NO_TABLES, map[], AllRefs(chunks));
  }

  lemma ExampleIsLegal(digest: Bytes -> nat, k: ObjectKey, data: Bytes, chunks: seq<Chunk>, blobs: Blobs)
    requires var env, s := Env(ExampleSystem(), digest), Store(NO_TABLES, blobs, blobs.Keys);
             Enabled(env, s, Put(k, data, 3, chunks)) && Succeeds(env, s, Put(k, data, 3, chunks))
    ensures var env, run := Env(ExampleSystem(), digest), ExampleRun(k, data, chunks, blobs);
            && Legal(env, NO_STORE, run)
            && Promised(env, NO_STORE, NO_SPEC, run) == Effect(digest, NO_SPEC, run[1])
  {
    var env, run := Env(ExampleSystem(), digest), ExampleRun(k, data, chunks, blobs);
    var s := Store(NO_TABLES, blobs, blobs.Keys);
    assert Apply(env, NO_STORE, run[0]) == s;
    assert run[1..] == [run[1]];
    OneStep(env, s, NO_SPEC, run[1]);
  }

  /** A call of the world that has got as far as its write. */
  lemma SomeCallCommits(digest: Bytes -> nat, k: ObjectKey, data: Bytes) returns (events: seq<Event>)
    requires 0 < |data| <= MAX_INT
    ensures var env := Env(ExampleSystem(), digest);
            && Happens(env, START, events) && Possible(env, End(env, START, events), Commit(0))
            && End(env, START, events).calls[0].request == ForObject(k)
            && End(env, START, events).calls[0].job.input == data
  {
    var env, job := Env(ExampleSystem(), digest), ExampleJob(data);
    var start := Start(0, ForObject(k), job);
    var w := After(env, START, start);
    assert View(w.store, w.calls[0]) == Pipeline.Init(job, map[]);
    var steps := ExampleStream(data);
    var work := OwnStepsHappen(env, w, 0, steps);
    events := [start] + work;
    assert events[1..] == work;
    var u := End(env, w, work);
    var s := View(u.store, u.calls[0]);
    assert PipelineResults.Result(s) == PipelineResults.Result(u.calls[0].state);
    ExamplePut(digest, k, data, PipelineResults.Result(s), s.disk.blobs, s.disk.used);
  }
}
