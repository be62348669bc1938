/** Streams of different calls, interleaved with each other and with every other operation: as far as the store and
    its readers can tell, each call is one step, taken when its metadata is written. */
module Concurrent {
  import opened Base
  import opened Layout
  import opened Backends
  import opened Sharding
  import opened Chunks
  import opened Schema
  import opened Representation
  import opened Metadata
  import opened ObjectStore
  import opened References
  import opened Refinement
  import opened Promises
  import P = Pipeline
  import R = PipelineResults
  import PipelineRuns

  /** What a stream is for. */
  datatype Request = ForObject(k: ObjectKey) | ForPart(p: PartKey)

  /** A call in flight. Of its state, only the disk is shared; `View` has the current one. */
  datatype Call = Call(request: Request, job: P.Job, state: P.State)

  datatype World = World(store: Store, calls: map<nat, Call>)

  datatype Event =
    | Start(id: nat, request: Request, job: P.Job)
    | Work(id: nat, step: P.Step)  // a step of the call's pipeline
    | Commit(id: nat)              // the stream has succeeded and its metadata is written
    | Leave(id: nat)               // the call reports an error
    | Other(operation: Step)       // an operation without a stream

  const START: World := World(NO_STORE, map[])

  /** The call's state with the blobs as they are now. */
  function View(s: Store, c: Call): P.State {
    c.state.(disk := c.state.disk.(blobs := s.blobs, used := s.used))
  }

  function OwnOf(c: Call): set<Address> {
    P.Own(c.state.disk)
  }

  /** What the call writes when its stream has succeeded: the bytes that went through the digest, and the chunks. */
  function Write(c: Call): Step {
    match c.request
    case ForObject(k) => Put(k, c.state.reader.digest, c.job.comp.level, R.Result(c.state))
    case ForPart(p) => UploadPart(p, c.state.reader.digest, R.Result(c.state))
  }

  predicate Streams(step: Step) {
    step.Upload? || step.Discard? || step.Put? || step.UploadPart?
  }

  ghost predicate Possible(env: Env, w: World, e: Event) {
    match e
    case Start(id, _, job) =>
      id !in w.calls && job.sys == env.sys && job.used == w.store.used && job.comp.kind == KIND && job.chunkSize > 0
    case Work(id, step) =>
      id in w.calls && !step.Others? && P.Enabled(w.calls[id].job, View(w.store, w.calls[id]), step)
    case Commit(id) =>
      && id in w.calls && w.calls[id].state.phase.Succeeded?
      && Transaction(env, w.store.tables, Write(w.calls[id])).Some?
    case Leave(id) => id in w.calls && R.Over(w.calls[id].state)
    case Other(step) => !Streams(step) && Enabled(env, w.store, step)
  }

  ghost function After(env: Env, w: World, e: Event): World
    requires Possible(env, w, e)
  {
    match e
    case Start(id, request, job) => w.(calls := w.calls[id := Call(request, job, P.Init(job, w.store.blobs))])
    case Work(id, step) =>
      var c := w.calls[id];
      var t := P.Apply(c.job, View(w.store, c), step);
      World(w.store.(blobs := t.disk.blobs, used := t.disk.used), w.calls[id := c.(state := t)])
    case Commit(id) => World(Apply(env, w.store, Write(w.calls[id])), w.calls - {id})
    case Leave(id) => w.(calls := w.calls - {id})
    case Other(step) => w.(store := Apply(env, w.store, step))
  }

  ghost predicate Happens(env: Env, w: World, events: seq<Event>)
    decreases |events|
  {
    events == [] || (Possible(env, w, events[0]) && Happens(env, After(env, w, events[0]), events[1..]))
  }

  ghost function End(env: Env, w: World, events: seq<Event>): World
    requires Happens(env, w, events)
    decreases |events|
  {
    if events == [] then w else End(env, After(env, w, events[0]), events[1..])
  }

  // ---------------------------------------------------------------------
  // What the store sees
  // ---------------------------------------------------------------------

  /** The step of the store that an event is, if it is one. */
  function Emits(w: World, e: Event): seq<Step> {
    match e
    case Work(id, step) => if id in w.calls then WorkEmits(w.calls[id], step) else []
    case Commit(id) => if id in w.calls then [Write(w.calls[id])] else []
    case Other(step) => [step]
    case _ => []
  }

  function WorkEmits(c: Call, step: P.Step): seq<Step> {
    match step
    case Put(i, b, location) =>
      if i in c.state.work.active && P.HasNext(c.state.work.active[i], b) && b < |c.job.sys.backends| then
        [Upload(map[Address(c.job.sys.backends[b], location) := P.NextRaw(c.state.work.active[i], b).data], {})]
      else []
    case Delete =>
      if c.state.phase.Cleaning? && c.state.phase.queue != [] then
        [Discard({AddressOf(c.state.phase.queue[0])})]
      else []
    case _ => []
  }

  ghost function Trace(env: Env, w: World, events: seq<Event>): seq<Step>
    requires Happens(env, w, events)
    decreases |events|
  {
    if events == [] then [] else Emits(w, events[0]) + Trace(env, After(env, w, events[0]), events[1..])
  }

  // ---------------------------------------------------------------------
  // Invariants
  // ---------------------------------------------------------------------

  /** The call's pipeline is in order, and no row refers to its blobs. */
  ghost predicate CallOk(env: Env, s: Store, c: Call) {
    && P.Inv(c.job, View(s, c)) && c.job.sys == env.sys && c.job.comp.kind == KIND
    && Unlisted(s.tables, OwnOf(c))
  }

  ghost predicate CallsOk(env: Env, s: Store, calls: map<nat, Call>) {
    forall id {:trigger CallOk(env, s, calls[id])} :: id in calls ==> CallOk(env, s, calls[id])
  }

  predicate Strangers(a: Call, b: Call) {
    OwnOf(a) !! OwnOf(b)
  }

  /** No two calls use the same address. */
  predicate CallsApart(calls: map<nat, Call>) {
    forall i, j {:trigger Strangers(calls[i], calls[j])} ::
      i in calls && j in calls && i != j ==> Strangers(calls[i], calls[j])
  }

  ghost predicate WorldInv(env: Env, w: World, full: Blobs, lists: Lists, spec: Spec) {
    Related(env, w.store, full, lists, spec) && CallsOk(env, w.store, w.calls) && CallsApart(w.calls)
  }

  // ---------------------------------------------------------------------
  // A stream that has succeeded
  // ---------------------------------------------------------------------

  lemma CompleteHolds(job: P.Job, s: P.State)
    requires job.chunkSize > 0 && job.comp.kind == KIND && R.Complete(job, s) && Flatten(s.reader.pieces) == job.input
    ensures AllWellFormed(R.Result(s)) && AllRefs(R.Result(s)) <= P.Own(s.disk)
    ensures Intact(job.sys, s.disk.blobs, R.Result(s), job.input)
  {
    var chunks, pieces := R.Result(s), s.reader.pieces;
    forall i | 0 <= i < |chunks|
      ensures WellFormed(chunks[i]) && Refs(chunks[i]) <= s.disk.blobs.Keys
      ensures Holds(job.sys, s.disk.blobs, chunks[i], KIND, pieces[i])
    {
      assert P.Produced(job, s.disk, chunks[i], pieces[i]);
    }
    AllRefsBound(chunks, s.disk.blobs.Keys, {});
    AllRefsBound(chunks, P.Own(s.disk), {});
    assert HeldAs(job.sys, s.disk.blobs, chunks, pieces);
  }

  /** In every interleaving, a stream that has succeeded has its input in chunks on its own blobs. */
  lemma SucceededIsHeld(job: P.Job, s: P.State)
    requires P.Inv(job, s) && s.phase.Succeeded? && job.comp.kind == KIND
    ensures s.reader.digest == job.input && s.reader.total == |job.input|
    ensures AllWellFormed(R.Result(s)) && AllRefs(R.Result(s)) <= P.Own(s.disk)
    ensures Intact(job.sys, s.disk.blobs, R.Result(s), job.input)
  {
    R.SucceededIsComplete(job, s);
    CompleteHolds(job, s);
  }

  lemma CommitIsEnabled(env: Env, s: Store, c: Call)
    requires CallOk(env, s, c) && c.state.phase.Succeeded?
    ensures Enabled(env, s, Write(c)) && StreamOk(Write(c)) && OwnRefs(Write(c)) <= OwnOf(c)
    ensures c.state.reader.digest == c.job.input
  {
    var v := View(s, c);
    SucceededIsHeld(c.job, v);
    assert R.Result(v) == R.Result(c.state);
    FewerUnlisted(s.tables, OwnOf(c), AllRefs(R.Result(c.state)));
  }

  lemma FewerUnlisted(t: Tables, refs: set<Address>, fewer: set<Address>)
    requires Unlisted(t, refs) && fewer <= refs
    ensures Unlisted(t, fewer)
  {
  }

  // ---------------------------------------------------------------------
  // What a step of the store does to the calls
  // ---------------------------------------------------------------------

  /** For a call, what happens elsewhere is a step of others. */
  ghost predicate SeesOthers(s: Store, t: Store, c: Call) {
    var others := P.Others(t.blobs, t.used);
    P.Enabled(c.job, View(s, c), others) && View(t, c) == P.Apply(c.job, View(s, c), others)
  }

  lemma OwnIsHandedOut(env: Env, s: Store, c: Call)
    requires CallOk(env, s, c)
    ensures OwnOf(c) <= s.used
  {
    R.OwnIsUsed(c.job, c.state.work, View(s, c).disk);
  }

  lemma SeesOthersStays(env: Env, s: Store, t: Store, c: Call)
    requires CallOk(env, s, c) && SeesOthers(s, t, c) && Unlisted(t.tables, OwnOf(c))
    ensures CallOk(env, t, c)
  {
    P.StepKeepsInv(c.job, View(s, c), P.Others(t.blobs, t.used));
  }

  /** The step leaves the call's blobs alone. */
  lemma StepAgrees(env: Env, s: Store, step: Step, c: Call)
    requires CallOk(env, s, c) && Enabled(env, s, step) && (step.Discard? ==> step.gone !! OwnOf(c))
    ensures Agree(s.blobs, BlobsAfter(s, step), OwnOf(c))
  {
    OwnIsHandedOut(env, s, c);
    match step
    case Delete(k) => RefsNotOwn(env, s, c, k);
    case DeleteFails(k, after) =>
      RefsNotOwn(env, s, c, k);
      RemovalAgrees(s.blobs, after, RefsOf(s, k), OwnOf(c));
    case _ =>
  }

  lemma RefsNotOwn(env: Env, s: Store, c: Call, k: ObjectKey)
    requires CallOk(env, s, c)
    ensures RefsOf(s, k) !! OwnOf(c)
  {
    assert AllRefs(ChunksOf(s.tables, OfObject(k))) !! OwnOf(c);
  }

  lemma BlobsAreUsed(env: Env, s: Store, step: Step)
    requires s.blobs.Keys <= s.used && Enabled(env, s, step)
    ensures var t := Apply(env, s, step); s.used <= t.used && t.blobs.Keys <= t.used
  {
  }

  lemma StepIsSeen(env: Env, s: Store, step: Step, c: Call)
    requires s.blobs.Keys <= s.used && Enabled(env, s, step) && CallOk(env, s, c)
    requires step.Discard? ==> step.gone !! OwnOf(c)
    ensures SeesOthers(s, Apply(env, s, step), c)
  {
    StepAgrees(env, s, step, c);
    BlobsAreUsed(env, s, step);
    SeenIf(s, Apply(env, s, step), c);
  }

  lemma SeenIf(s: Store, t: Store, c: Call)
    requires s.used <= t.used && t.blobs.Keys <= t.used && Agree(s.blobs, t.blobs, OwnOf(c))
    ensures SeesOthers(s, t, c)
  {
  }

  /** Any step of the store is a step of others for every call whose blobs it does not handle. */
  lemma StepSparesCall(env: Env, s: Store, full: Blobs, lists: Lists, spec: Spec, step: Step, c: Call)
    requires Related(env, s, full, lists, spec) && Enabled(env, s, step) && CallOk(env, s, c)
    requires StreamOk(step) && OwnRefs(step) !! OwnOf(c) && (step.Discard? ==> step.gone !! OwnOf(c))
    ensures SeesOthers(s, Apply(env, s, step), c) && CallOk(env, Apply(env, s, step), c)
  {
    StepIsSeen(env, s, step, c);
    StaysUnlisted(env, s, lists, step, OwnOf(c));
    SeesOthersStays(env, s, Apply(env, s, step), c);
  }

  lemma StepSparesCalls(env: Env, s: Store, full: Blobs, lists: Lists, spec: Spec, step: Step, calls: map<nat, Call>)
    requires Related(env, s, full, lists, spec) && Enabled(env, s, step) && CallsOk(env, s, calls) && StreamOk(step)
    requires forall id :: id in calls ==>
               OwnRefs(step) !! OwnOf(calls[id]) && (step.Discard? ==> step.gone !! OwnOf(calls[id]))
    ensures CallsOk(env, Apply(env, s, step), calls)
    ensures forall id :: id in calls ==> SeesOthers(s, Apply(env, s, step), calls[id])
  {
    forall id | id in calls
      ensures CallOk(env, Apply(env, s, step), calls[id]) && SeesOthers(s, Apply(env, s, step), calls[id])
    {
      assert CallOk(env, s, calls[id]);
      StepSparesCall(env, s, full, lists, spec, step, calls[id]);
    }
  }

  // ---------------------------------------------------------------------
  // Events
  // ---------------------------------------------------------------------

  /** The event is this step of the store, or none. */
  ghost predicate Is(env: Env, w: World, e: Event, steps: seq<Step>)
    requires Possible(env, w, e)
  {
    Emits(w, e) == steps && Legal(env, w.store, steps) && Final(env, w.store, steps) == After(env, w, e).store
  }

  lemma OneStep(env: Env, s: Store, spec: Spec, step: Step)
    requires Enabled(env, s, step)
    ensures Legal(env, s, [step]) && Final(env, s, [step]) == Apply(env, s, step)
    ensures Promised(env, s, spec, [step]) == SpecAfter(env, s, spec, step)
  {
    assert [step][1..] == [];
  }

  lemma NoStep(env: Env, s: Store, spec: Spec)
    ensures Legal(env, s, []) && Final(env, s, []) == s && Promised(env, s, spec, []) == spec
  {
  }

  /** One call's state changes, and its own addresses stay apart from the others'. */
  lemma ChangedCalls(env: Env, s: Store, calls: map<nat, Call>, id: nat, c: Call)
    requires CallsOk(env, s, calls - {id}) && CallsApart(calls) && CallOk(env, s, c)
    requires forall i :: i in calls && i != id ==> Strangers(calls[i], c)
    ensures CallsOk(env, s, calls[id := c]) && CallsApart(calls[id := c])
  {
    var next := calls[id := c];
    forall i | i in next
      ensures CallOk(env, s, next[i])
    {
      assert i != id ==> CallOk(env, s, (calls - {id})[i]);
    }
    forall i, j | i in next && j in next && i != j
      ensures Strangers(next[i], next[j])
    {
      if i != id && j != id {
        assert Strangers(calls[i], calls[j]);
      } else {
        assert i != id ==> Strangers(calls[i], c);
        assert j != id ==> Strangers(calls[j], c);
      }
    }
  }

  lemma FewerCalls(env: Env, s: Store, calls: map<nat, Call>, id: nat)
    requires CallsOk(env, s, calls) && CallsApart(calls)
    ensures CallsOk(env, s, calls - {id}) && CallsApart(calls - {id})
  {
    var left := calls - {id};
    forall i | i in left
      ensures CallOk(env, s, left[i])
    {
      assert CallOk(env, s, calls[i]);
    }
    forall i, j | i in left && j in left && i != j
      ensures Strangers(left[i], left[j])
    {
      assert Strangers(calls[i], calls[j]);
    }
  }

  lemma NewCall(env: Env, s: Store, request: Request, job: P.Job)
    requires Configured(env.sys) && s.blobs.Keys <= s.used
    requires job.sys == env.sys && job.used == s.used && job.comp.kind == KIND && job.chunkSize > 0
    ensures var c := Call(request, job, P.Init(job, s.blobs)); CallOk(env, s, c) && OwnOf(c) == {}
  {
    P.StartsWell(job, s.blobs);
    assert View(s, Call(request, job, P.Init(job, s.blobs))) == P.Init(job, s.blobs);
  }

  lemma StartInv(env: Env, w: World, full: Blobs, lists: Lists, spec: Spec, e: Event)
    requires Configured(env.sys) && WorldInv(env, w, full, lists, spec) && Possible(env, w, e) && e.Start?
    ensures WorldInv(env, After(env, w, e), full, lists, spec) && Is(env, w, e, [])
  {
    var c := Call(e.request, e.job, P.Init(e.job, w.store.blobs));
    NewCall(env, w.store, e.request, e.job);
    assert w.calls - {e.id} == w.calls;
    ChangedCalls(env, w.store, w.calls, e.id, c);
  }

  lemma LeaveInv(env: Env, w: World, full: Blobs, lists: Lists, spec: Spec, e: Event)
    requires WorldInv(env, w, full, lists, spec) && Possible(env, w, e) && e.Leave?
    ensures WorldInv(env, After(env, w, e), full, lists, spec) && Is(env, w, e, [])
  {
    FewerCalls(env, w.store, w.calls, e.id);
  }

  lemma OtherInv(env: Env, w: World, full: Blobs, lists: Lists, spec: Spec, e: Event) returns (next: Lists)
    requires WorldInv(env, w, full, lists, spec) && Possible(env, w, e) && e.Other?
    ensures WorldInv(env, After(env, w, e), full, next, SpecAfter(env, w.store, spec, e.operation))
    ensures Is(env, w, e, [e.operation])
  {
    OneStep(env, w.store, spec, e.operation);
    next := StepRelated(env, w.store, full, lists, spec, e.operation);
    StepSparesCalls(env, w.store, full, lists, spec, e.operation, w.calls);
  }

  lemma CommitInv(env: Env, w: World, full: Blobs, lists: Lists, spec: Spec, e: Event) returns (next: Lists)
    requires WorldInv(env, w, full, lists, spec) && Possible(env, w, e) && e.Commit?
    ensures WorldInv(env, After(env, w, e), full, next, SpecAfter(env, w.store, spec, Write(w.calls[e.id])))
    ensures Is(env, w, e, [Write(w.calls[e.id])])
  {
    var c := w.calls[e.id];
    assert CallOk(env, w.store, c);
    CommitIsEnabled(env, w.store, c);
    OneStep(env, w.store, spec, Write(c));
    next := StepRelated(env, w.store, full, lists, spec, Write(c));
    FewerCalls(env, w.store, w.calls, e.id);
    forall i | i in w.calls - {e.id}
      ensures OwnRefs(Write(c)) !! OwnOf(w.calls[i])
    {
      assert Strangers(w.calls[i], c);
    }
    StepSparesCalls(env, w.store, full, lists, spec, Write(c), w.calls - {e.id});
  }

  /** A step of the pipeline that does not touch the disk. */
  lemma QuietInv(env: Env, w: World, full: Blobs, lists: Lists, spec: Spec, e: Event)
    requires WorldInv(env, w, full, lists, spec) && Possible(env, w, e) && e.Work? && !e.step.Put? && !e.step.Delete?
    ensures WorldInv(env, After(env, w, e), full, lists, spec) && Is(env, w, e, [])
  {
    var c := w.calls[e.id];
    assert CallOk(env, w.store, c);
    var v := View(w.store, c);
    var t := P.Apply(c.job, v, e.step);
    R.DiskAfter(c.job, v, e.step);
    P.StepKeepsInv(c.job, v, e.step);
    var next := c.(state := t);
    assert View(w.store, next) == t;
    FewerCalls(env, w.store, w.calls, e.id);
    forall i | i in w.calls && i != e.id
      ensures Strangers(w.calls[i], next)
    {
      assert Strangers(w.calls[i], c);
    }
    ChangedCalls(env, w.store, w.calls, e.id, next);
  }

  /** The call's own state after it has changed the disk as the store has. */
  lemma ActedOk(env: Env, s: Store, c: Call, step: P.Step, t: Store)
    requires CallOk(env, s, c) && !step.Others? && P.Enabled(c.job, View(s, c), step)
    requires var after := P.Apply(c.job, View(s, c), step);
             && t.blobs == after.disk.blobs && t.used == after.disk.used && Unlisted(t.tables, P.Own(after.disk))
    ensures CallOk(env, t, c.(state := P.Apply(c.job, View(s, c), step)))
  {
    var after := P.Apply(c.job, View(s, c), step);
    P.StepKeepsInv(c.job, View(s, c), step);
    assert View(t, c.(state := after)) == after;
  }

  lemma FreshUnlisted(env: Env, s: Store, full: Blobs, lists: Lists, spec: Spec, refs: set<Address>)
    requires Related(env, s, full, lists, spec) && refs !! s.used
    ensures Unlisted(s.tables, refs)
  {
    forall o | o in lists
      ensures AllRefs(lists[o].chunks) !! refs
    {
      assert DataOk(env.sys, full, lists[o], Content(spec, o));
    }
    UnlistedIff(s.tables, lists, refs);
  }

  lemma BothUnlisted(t: Tables, a: set<Address>, b: set<Address>)
    requires Unlisted(t, a) && Unlisted(t, b)
    ensures Unlisted(t, a + b)
  {
  }

  /** What an upload of the pipeline does to the disk. */
  lemma PutDisk(job: P.Job, v: P.State, step: P.Step) returns (a: Address, data: Bytes)
    requires P.Enabled(job, v, step) && step.Put?
    ensures a !in v.disk.used && a == Address(job.sys.backends[step.backend], step.location)
    ensures data == P.NextRaw(v.work.active[step.ordinal], step.backend).data
    ensures var d := P.Apply(job, v, step).disk;
            d.blobs == v.disk.blobs[a := data] && d.used == v.disk.used + {a} && P.Own(d) == P.Own(v.disk) + {a}
  {
    var i, b := step.ordinal, step.backend;
    var task := v.work.active[i];
    R.DiskAfter(job, v, step);
    a, data := AddressOf(P.NextShard(job, task, b, step.location)), P.NextRaw(task, b).data;
    R.OwnAfterStore(v.disk, i, a, data);
  }

  lemma UploadOne(env: Env, s: Store, a: Address, data: Bytes)
    requires a !in s.used
    ensures var step := Upload(map[a := data], {});
            Enabled(env, s, step) && Apply(env, s, step) == s.(blobs := s.blobs[a := data], used := s.used + {a})
  {
    assert s.blobs + map[a := data] == s.blobs[a := data];
  }

  /** An upload of the pipeline is an upload to the store. */
  lemma PutIs(env: Env, w: World, spec: Spec, e: Event) returns (a: Address, data: Bytes)
    requires Possible(env, w, e) && e.Work? && e.step.Put?
    ensures a !in w.store.used && Is(env, w, e, [Upload(map[a := data], {})])
    ensures Enabled(env, w.store, Upload(map[a := data], {}))
    ensures After(env, w, e).store == Apply(env, w.store, Upload(map[a := data], {}))
    ensures OwnOf(After(env, w, e).calls[e.id]) == OwnOf(w.calls[e.id]) + {a}
  {
    var c := w.calls[e.id];
    a, data := PutDisk(c.job, View(w.store, c), e.step);
    assert P.Own(View(w.store, c).disk) == OwnOf(c);
    UploadOne(env, w.store, a, data);
    OneStep(env, w.store, spec, Upload(map[a := data], {}));
  }

  lemma PutInv(env: Env, w: World, full: Blobs, lists: Lists, spec: Spec, e: Event) returns (step: Step)
    requires WorldInv(env, w, full, lists, spec) && Possible(env, w, e) && e.Work? && e.step.Put?
    ensures Is(env, w, e, [step]) && step.Upload? && Enabled(env, w.store, step)
    ensures WorldInv(env, After(env, w, e), FullAfter(full, step), lists, spec)
  {
    var a, data := PutIs(env, w, spec, e);
    step := Upload(map[a := data], {});
    var c, next := w.calls[e.id], After(env, w, e);
    OtherwiseRelated(env, w.store, full, lists, spec, step);
    FewerCalls(env, w.store, w.calls, e.id);
    StepSparesCalls(env, w.store, full, lists, spec, step, w.calls - {e.id});
    assert CallOk(env, w.store, c);
    FreshUnlisted(env, w.store, full, lists, spec, {a});
    BothUnlisted(w.store.tables, OwnOf(c), {a});
    ActedOk(env, w.store, c, e.step, next.store);
    forall i | i in w.calls && i != e.id
      ensures Strangers(w.calls[i], next.calls[e.id])
    {
      assert CallOk(env, w.store, w.calls[i]) && Strangers(w.calls[i], c);
      OwnIsHandedOut(env, w.store, w.calls[i]);
    }
    ChangedCalls(env, next.store, w.calls, e.id, next.calls[e.id]);
  }

  /** A delete of the cleanup is a discard from the store. */
  lemma DeleteIs(env: Env, w: World, spec: Spec, e: Event) returns (a: Address)
    requires CallsOk(env, w.store, w.calls) && Possible(env, w, e) && e.Work? && e.step.Delete?
    ensures a in OwnOf(w.calls[e.id]) && Is(env, w, e, [Discard({a})])
    ensures Enabled(env, w.store, Discard({a})) && After(env, w, e).store == Apply(env, w.store, Discard({a}))
    ensures OwnOf(After(env, w, e).calls[e.id]) == OwnOf(w.calls[e.id])
  {
    var c := w.calls[e.id];
    assert CallOk(env, w.store, c);
    var v := View(w.store, c);
    R.DiskAfter(c.job, v, e.step);
    R.DeletesOwn(c.job, v);
    a := AddressOf(v.phase.queue[0]);
    FewerUnlisted(w.store.tables, OwnOf(c), {a});
    OneStep(env, w.store, spec, Discard({a}));
  }

  lemma DeleteInv(env: Env, w: World, full: Blobs, lists: Lists, spec: Spec, e: Event) returns (step: Step)
    requires WorldInv(env, w, full, lists, spec) && Possible(env, w, e) && e.Work? && e.step.Delete?
    ensures Is(env, w, e, [step]) && step.Discard? && Enabled(env, w.store, step)
    ensures WorldInv(env, After(env, w, e), full, lists, spec)
  {
    var a := DeleteIs(env, w, spec, e);
    step := Discard({a});
    var c, next := w.calls[e.id], After(env, w, e);
    OtherwiseRelated(env, w.store, full, lists, spec, step);
    FewerCalls(env, w.store, w.calls, e.id);
    forall i | i in w.calls && i != e.id
      ensures Strangers(w.calls[i], c)
    {
      assert Strangers(w.calls[i], c);
    }
    StepSparesCalls(env, w.store, full, lists, spec, step, w.calls - {e.id});
    assert CallOk(env, w.store, c);
    ActedOk(env, w.store, c, e.step, next.store);
    ChangedCalls(env, next.store, w.calls, e.id, next.calls[e.id]);
  }

  /** Every event is at most one step of the store, and keeps the invariant. */
  lemma EventInv(env: Env, w: World, full: Blobs, lists: Lists, spec: Spec, e: Event) returns (all: Blobs, next: Lists)
    requires Configured(env.sys) && WorldInv(env, w, full, lists, spec) && Possible(env, w, e)
    ensures Is(env, w, e, Emits(w, e)) && |Emits(w, e)| <= 1
    ensures WorldInv(env, After(env, w, e), all, next, Promised(env, w.store, spec, Emits(w, e)))
  {
    all, next := full, lists;
    NoStep(env, w.store, spec);
    match e
    case Start(_, _, _) => StartInv(env, w, full, lists, spec, e);
    case Leave(_) => LeaveInv(env, w, full, lists, spec, e);
    case Commit(id) =>
      next := CommitInv(env, w, full, lists, spec, e);
      CommitIsOneStep(env, w, spec, e);
    case Other(step) =>
      next := OtherInv(env, w, full, lists, spec, e);
      OneStep(env, w.store, spec, step);
    case Work(_, step) => all := WorkInv(env, w, full, lists, spec, e);
  }

  lemma CommitIsOneStep(env: Env, w: World, spec: Spec, e: Event)
    requires CallsOk(env, w.store, w.calls) && Possible(env, w, e) && e.Commit?
    ensures Promised(env, w.store, spec, Emits(w, e)) == SpecAfter(env, w.store, spec, Write(w.calls[e.id]))
  {
    assert CallOk(env, w.store, w.calls[e.id]);
    CommitIsEnabled(env, w.store, w.calls[e.id]);
    OneStep(env, w.store, spec, Write(w.calls[e.id]));
  }

  lemma WorkInv(env: Env, w: World, full: Blobs, lists: Lists, spec: Spec, e: Event) returns (all: Blobs)
    requires WorldInv(env, w, full, lists, spec) && Possible(env, w, e) && e.Work?
    ensures Is(env, w, e, Emits(w, e)) && |Emits(w, e)| <= 1
    ensures WorldInv(env, After(env, w, e), all, lists, spec) && Promised(env, w.store, spec, Emits(w, e)) == spec
  {
    all := full;
    NoStep(env, w.store, spec);
    if e.step.Put? {
      var step := PutInv(env, w, full, lists, spec, e);
      all := FullAfter(full, step);
      OneStep(env, w.store, spec, step);
    } else if e.step.Delete? {
      var step := DeleteInv(env, w, full, lists, spec, e);
      OneStep(env, w.store, spec, step);
    } else {
      QuietInv(env, w, full, lists, spec, e);
    }
  }

  lemma {:induction false} RunsAppend(env: Env, s: Store, spec: Spec, a: seq<Step>, b: seq<Step>)
    requires Legal(env, s, a) && Legal(env, Final(env, s, a), b)
    ensures Legal(env, s, a + b) && Final(env, s, a + b) == Final(env, Final(env, s, a), b)
    ensures Promised(env, s, spec, a + b) == Promised(env, Final(env, s, a), Promised(env, s, spec, a), b)
    decreases |a|
  {
    if a == [] {
      assert a + b == b;
    } else {
      assert (a + b)[1..] == a[1..] + b;
      RunsAppend(env, Apply(env, s, a[0]), SpecAfter(env, s, spec, a[0]), a[1..], b);
    }
  }

  /** The store's part of a run is a run of the store. */
  ghost predicate Refines(env: Env, w: World, events: seq<Event>)
    requires Happens(env, w, events)
  {
    var trace := Trace(env, w, events);
    Legal(env, w.store, trace) && Final(env, w.store, trace) == End(env, w, events).store
  }

  lemma {:induction false} RunRefines(env: Env, w: World, full: Blobs, lists: Lists, spec: Spec, events: seq<Event>)
    returns (all: Blobs, next: Lists)
    requires Configured(env.sys) && WorldInv(env, w, full, lists, spec) && Happens(env, w, events)
    ensures Refines(env, w, events)
    ensures WorldInv(env, End(env, w, events), all, next, Promised(env, w.store, spec, Trace(env, w, events)))
    decreases |events|
  {
    if events == [] {
      all, next := full, lists;
      NoStep(env, w.store, spec);
    } else {
      var e := events[0];
      var mid, more := EventInv(env, w, full, lists, spec, e);
      var u := After(env, w, e);
      all, next := RunRefines(env, u, mid, more, Promised(env, w.store, spec, Emits(w, e)), events[1..]);
      RunsAppend(env, w.store, spec, Emits(w, e), Trace(env, u, events[1..]));
    }
  }

  lemma StartIsInv(env: Env)
    ensures WorldInv(env, START, map[], map[], NO_SPEC)
  {
    EmptyRelated(env);
  }

  // ---------------------------------------------------------------------
  // What every concurrent run guarantees
  // ---------------------------------------------------------------------

  lemma ReachableInv(env: Env, events: seq<Event>) returns (full: Blobs, lists: Lists)
    requires Configured(env.sys) && Happens(env, START, events)
    ensures Refines(env, START, events)
    ensures WorldInv(env, End(env, START, events), full, lists,
                     Promised(env, NO_STORE, NO_SPEC, Trace(env, START, events)))
  {
    StartIsInv(env);
    full, lists := RunRefines(env, START, map[], map[], NO_SPEC, events);
  }

  /** What clients are promised after a run of calls that may overlap: the effects of the calls' writes and of the
      other operations, each at one moment, in that order. */
  ghost function PromisedTo(env: Env, events: seq<Event>): Spec
    requires Happens(env, START, events)
  {
    Promised(env, NO_STORE, NO_SPEC, Trace(env, START, events))
  }

  /** However the calls' workers, uploads and cleanups interleave with each other and with other operations: the
      store is in a state that some run of single steps reaches, one for each call's write. */
  lemma EveryRunIsAtomic(env: Env, events: seq<Event>)
    requires Configured(env.sys) && Happens(env, START, events)
    ensures Legal(env, NO_STORE, Trace(env, START, events))
    ensures Final(env, NO_STORE, Trace(env, START, events)) == End(env, START, events).store
  {
    var _, _ := ReachableInv(env, events);
  }

  /** With any tolerated set of backends down every key reads as promised, unless a delete of it gave up; and from
      whatever is left it reads as promised or not at all. The only hypothesis is a configured system. */
  lemma ConcurrentReads(env: Env, events: seq<Event>, down: set<BackendId>, k: ObjectKey)
    requires Configured(env.sys) && Happens(env, START, events)
    ensures Delivers(env, End(env, START, events).store, PromisedTo(env, events), down, k)
    ensures |down| <= Max(0, env.sys.tolerance) && k !in PromisedTo(env, events).damaged ==>
              ReadObject(env, End(env, START, events).store, down, k) == PromisedObject(PromisedTo(env, events), k)
  {
    EveryRunIsAtomic(env, events);
    ReadsNeverLie(env, Trace(env, START, events), down, k);
    if |down| <= Max(0, env.sys.tolerance) && k !in PromisedTo(env, events).damaged {
      ReadsArePromised(env, Trace(env, START, events), down, k);
    }
  }

  /** A call's write publishes exactly the bytes it was given. */
  lemma CommitPublishes(env: Env, events: seq<Event>, id: nat, down: set<BackendId>)
    requires Configured(env.sys) && Happens(env, START, events) && |down| <= Max(0, env.sys.tolerance)
    requires var w := End(env, START, events); Possible(env, w, Commit(id)) && w.calls[id].request.ForObject?
    ensures var w := End(env, START, events);
            ReadObject(env, After(env, w, Commit(id)).store, down, w.calls[id].request.k) == Some(w.calls[id].job.input)
  {
    var full, lists := ReachableInv(env, events);
    var w := End(env, START, events);
    assert CallOk(env, w.store, w.calls[id]);
    CommitIsEnabled(env, w.store, w.calls[id]);
    TouchedReadsAs(env, Trace(env, START, events), Write(w.calls[id]), down, w.calls[id].request.k);
  }

  /** Until then it changes nothing that can be read: neither its uploads nor its cleanup, nor its failure. */
  lemma UnseenUntilCommit(env: Env, events: seq<Event>, e: Event, down: set<BackendId>, k: ObjectKey)
    requires Configured(env.sys) && Happens(env, START, events) && Possible(env, End(env, START, events), e)
    requires e.Start? || e.Work? || e.Leave?
    ensures var w := End(env, START, events);
            ReadObject(env, After(env, w, e).store, down, k) == ReadObject(env, w.store, down, k)
  {
    var full, lists := ReachableInv(env, events);
    var w, spec := End(env, START, events), PromisedTo(env, events);
    if e.Work? {
      WorkUnseen(env, w, full, lists, spec, e, down, k);
    }
  }

  lemma WorkUnseen(env: Env, w: World, full: Blobs, lists: Lists, spec: Spec, e: Event, down: set<BackendId>,
                   k: ObjectKey)
    requires WorldInv(env, w, full, lists, spec) && Possible(env, w, e) && e.Work?
    ensures ReadObject(env, After(env, w, e).store, down, k) == ReadObject(env, w.store, down, k)
  {
    if e.step.Put? {
      var step := PutInv(env, w, full, lists, spec, e);
      OneStep(env, w.store, spec, step);
      UntouchedReads(env, w.store, full, lists, spec, step, down, k);
    } else if e.step.Delete? {
      var step := DeleteInv(env, w, full, lists, spec, e);
      OneStep(env, w.store, spec, step);
      UntouchedReads(env, w.store, full, lists, spec, step, down, k);
    } else {
      QuietInv(env, w, full, lists, spec, e);
    }
  }

  // ---------------------------------------------------------------------
  // What a call sees
  // ---------------------------------------------------------------------

  lemma SeesItself(env: Env, s: Store, c: Call)
    requires CallOk(env, s, c)
    ensures SeesOthers(s, s, c)
  {
  }

  /** Whatever happens elsewhere is a step of others. */
  lemma Bystander(env: Env, w: World, full: Blobs, lists: Lists, spec: Spec, e: Event, id: nat)
    requires WorldInv(env, w, full, lists, spec) && Possible(env, w, e) && id in w.calls
    requires e.Other? || e.id != id
    ensures var u := After(env, w, e);
            id in u.calls && u.calls[id] == w.calls[id] && SeesOthers(w.store, u.store, w.calls[id])
  {
    var c := w.calls[id];
    assert CallOk(env, w.store, c);
    match e
    case Other(step) => StepSparesCall(env, w.store, full, lists, spec, step, c);
    case Commit(other) =>
      assert Strangers(c, w.calls[other]) && CallOk(env, w.store, w.calls[other]);
      CommitIsEnabled(env, w.store, w.calls[other]);
      StepSparesCall(env, w.store, full, lists, spec, Write(w.calls[other]), c);
    case Work(_, _) => WorkSeen(env, w, full, lists, spec, e, id);
    case _ => SeesItself(env, w.store, c);
  }

  lemma WorkSeen(env: Env, w: World, full: Blobs, lists: Lists, spec: Spec, e: Event, id: nat)
    requires WorldInv(env, w, full, lists, spec) && Possible(env, w, e) && id in w.calls && e.Work? && e.id != id
    ensures SeesOthers(w.store, After(env, w, e).store, w.calls[id])
  {
    var c := w.calls[id];
    assert CallOk(env, w.store, c) && Strangers(c, w.calls[e.id]);
    if e.step.Put? {
      var a, data := PutIs(env, w, spec, e);
      StepSparesCall(env, w.store, full, lists, spec, Upload(map[a := data], {}), c);
    } else if e.step.Delete? {
      var a := DeleteIs(env, w, spec, e);
      StepSparesCall(env, w.store, full, lists, spec, Discard({a}), c);
    } else {
      R.DiskAfter(w.calls[e.id].job, View(w.store, w.calls[e.id]), e.step);
      SeesItself(env, w.store, c);
    }
  }

  /** The call neither starts nor ends. */
  predicate Goes(e: Event, id: nat) {
    e.Other? || e.Work? || e.id != id
  }

  /** The step of the pipeline that an event is for the call. */
  ghost function Seen(env: Env, w: World, e: Event, id: nat): P.Step
    requires Possible(env, w, e)
  {
    if e.Work? && e.id == id then e.step else P.Others(After(env, w, e).store.blobs, After(env, w, e).store.used)
  }

  lemma EventSeen(env: Env, w: World, full: Blobs, lists: Lists, spec: Spec, e: Event, id: nat)
    requires WorldInv(env, w, full, lists, spec) && Possible(env, w, e) && id in w.calls && Goes(e, id)
    ensures var c, u := w.calls[id], After(env, w, e);
            && id in u.calls && u.calls[id].job == c.job
            && P.Enabled(c.job, View(w.store, c), Seen(env, w, e, id))
            && P.Apply(c.job, View(w.store, c), Seen(env, w, e, id)) == View(u.store, u.calls[id])
  {
    if e.Work? && e.id == id {
    } else {
      Bystander(env, w, full, lists, spec, e, id);
    }
  }

  /** What a call sees of a run of the world is a run of its own pipeline, in which all that the other calls and
      operations do are steps of others. So all that holds of every run of the pipeline holds of every call. */
  lemma {:induction false} EveryCallIsARun(env: Env, w: World, full: Blobs, lists: Lists, spec: Spec,
                                           events: seq<Event>, id: nat)
    returns (steps: seq<P.Step>)
    requires Configured(env.sys) && WorldInv(env, w, full, lists, spec) && Happens(env, w, events) && id in w.calls
    requires forall i :: 0 <= i < |events| ==> Goes(events[i], id)
    ensures var c, end := w.calls[id], End(env, w, events);
            && id in end.calls && end.calls[id].job == c.job
            && P.Legal(c.job, View(w.store, c), steps)
            && P.Final(c.job, View(w.store, c), steps) == View(end.store, end.calls[id])
    decreases |events|
  {
    if events == [] {
      steps := [];
    } else {
      var e, u := events[0], After(env, w, events[0]);
      EventSeen(env, w, full, lists, spec, e, id);
      var mid, more := EventInv(env, w, full, lists, spec, e);
      var rest := EveryCallIsARun(env, u, mid, more, Promised(env, w.store, spec, Emits(w, e)), events[1..], id);
      steps := [Seen(env, w, e, id)] + rest;
      PipelineRuns.Cons(w.calls[id].job, View(w.store, w.calls[id]), Seen(env, w, e, id), rest);
    }
  }

  /** From its start on, in particular: until it ends, a call is in a state that a run of its pipeline reaches. */
  lemma CallsRunTheirPipelines(env: Env, before: seq<Event>, start: Event, events: seq<Event>)
    returns (steps: seq<P.Step>)
    requires Configured(env.sys) && Happens(env, START, before) && start.Start?
    requires var w := End(env, START, before); Possible(env, w, start) && Happens(env, After(env, w, start), events)
    requires forall i :: 0 <= i < |events| ==> Goes(events[i], start.id)
    ensures var w := End(env, START, before);
            var end := End(env, After(env, w, start), events);
            && P.Ready(start.job) && w.store.blobs.Keys <= start.job.used && start.id in end.calls
            && P.Legal(start.job, P.Init(start.job, w.store.blobs), steps)
            && P.Final(start.job, P.Init(start.job, w.store.blobs), steps) == View(end.store, end.calls[start.id])
  {
    var w := End(env, START, before);
    var full, lists := ReachableInv(env, before);
    var u := After(env, w, start);
    StartInv(env, w, full, lists, PromisedTo(env, before), start);
    steps := EveryCallIsARun(env, u, full, lists, PromisedTo(env, before), events, start.id);
    assert View(u.store, u.calls[start.id]) == P.Init(start.job, w.store.blobs);
  }

  /** A run of a call's own steps can happen in the world. */
  lemma {:induction false} OwnStepsHappen(env: Env, w: World, id: nat, steps: seq<P.Step>) returns (events: seq<Event>)
    requires id in w.calls && PipelineRuns.OwnSteps(steps)
    requires P.Legal(w.calls[id].job, View(w.store, w.calls[id]), steps)
    ensures Happens(env, w, events)
    ensures var c, u := w.calls[id], End(env, w, events);
            && u.store.tables == w.store.tables && id in u.calls
            && u.calls[id].request == c.request && u.calls[id].job == c.job
            && View(u.store, u.calls[id]) == P.Final(c.job, View(w.store, c), steps)
    decreases |steps|
  {
    if steps == [] {
      events := [];
    } else {
      var e := Work(id, steps[0]);
      var u := After(env, w, e);
      assert View(u.store, u.calls[id]) == P.Apply(w.calls[id].job, View(w.store, w.calls[id]), steps[0]);
      var rest := OwnStepsHappen(env, u, id, steps[1..]);
      events := [e] + rest;
      assert events[1..] == rest;
    }
  }
}
