/** `ChunkStream` as a transition system: one reader, a bounded pool of workers, and the cleanup after a
    failure, interleaved with each other and with whatever others do to the store. */
module Pipeline {
  import opened Base
  import opened Layout
  import opened Backends
  import opened Sharding
  import opened Planning
  import opened ErasureCode
  import opened Collecting
  import opened FaultTolerance
  import opened Chunks

  /** One call: the bytes the source would deliver, how they are to be packed, and the addresses used before. */
  datatype Job = Job(
    sys: System, limits: map<BackendId, nat>, input: Bytes, chunkSize: nat, concurrency: int, comp: Compression,
    encryption: EncryptionType, used: set<Address>)

  /** What start-up and configuration guarantee. */
  ghost predicate Ready(job: Job) {
    Configured(job.sys) && job.chunkSize > 0
  }

  /** How a read ended: buffer full, end of input (possibly mid-buffer), or another error. */
  datatype ReadEnd = Full | EndOfInput | Fault

  /** Why the read loop was left. */
  datatype Exit = AtEnd | ByFault | ByCancel

  datatype Phase =
    | Checking                                          // at the loop condition
    | Reading
    | Spawning(end: ReadEnd)                            // waiting for a free worker
    | Waiting(exit: Exit)                               // g.Wait()
    | Cleaning(todo: set<nat>, queue: seq<Shard>)
    | Succeeded
    | Failed

  /** The reader's variables. The next ordinal is the number of buffers read so far. */
  datatype Reader = Reader(pieces: seq<Bytes>, total: nat, digest: Bytes)

  /** What a worker computes before its first upload: the packed buffer, and the blobs for each backend. */
  datatype Recipe = Recipe(key: nat, compressed: Bytes, encrypted: Bytes, size: nat, plan: seq<seq<RawShard>>)

  /** A worker: its buffer, its recipe unless making it failed, and the blobs uploaded so far to each backend. */
  datatype Task = Task(piece: Bytes, recipe: Option<Recipe>, done: seq<seq<Shard>>)

  /** Workers in flight, completed chunks, and workers that failed, by ordinal. */
  datatype Work = Work(active: map<nat, Task>, completed: map<nat, Chunk>, failed: map<nat, Task>)

  /** Blobs present, addresses ever handed out, and which worker put what. */
  datatype Disk = Disk(blobs: Blobs, used: set<Address>, owned: map<nat, set<Address>>)

  datatype State = State(phase: Phase, reader: Reader, work: Work, disk: Disk, deleteFailed: bool)

  datatype Step =
    | Check
    | ReadBuffer(n: nat, end: ReadEnd)
    | Spawn(recipe: Option<Recipe>)
    | Put(ordinal: nat, backend: nat, location: nat) // the next blob of that backend
    | Finish(ordinal: nat, id: nat)
    | Abort(ordinal: nat)
    | Join
    | Pick(ordinal: nat)
    | Delete
    | DeleteFails
    | Finished
    | Others(blobs: Blobs, used: set<Address>)       // anyone else, on other blobs

  /** Go's zero value, which a missing map entry would yield. */
  const ZERO_CHUNK: Chunk := Chunk(0, 0, 0, 0, 0, NoEncryption, 0, [])

  function Limit(job: Job): nat {
    Max(1, job.concurrency)
  }

  function Init(job: Job, blobs: Blobs): State {
    State(Checking, Reader([], 0, []), Work(map[], map[], map[]), Disk(blobs, job.used, map[]), false)
  }

  function Owned(d: Disk, i: nat): set<Address> {
    if i in d.owned then d.owned[i] else {}
  }

  /** All addresses that this call has used. */
  function Own(d: Disk): set<Address> {
    set i, a | i in d.owned && a in d.owned[i] :: a
  }

  // ---------------------------------------------------------------------
  // Workers
  // ---------------------------------------------------------------------

  /** The recipe packs the buffer, with the segment size and the blobs that the backends' limits ask for. */
  ghost predicate Follows(job: Job, piece: Bytes, r: Recipe) {
    && job.sys.codec.compress(piece, job.comp) == Some(r.compressed)
    && job.sys.codec.encrypt(r.compressed, job.encryption, r.key) == Some(r.encrypted)
    && (job.encryption.NoEncryption? ==> r.key == 0)
    && PlanOk(job.sys.code, job.sys.tolerance, job.limits, job.sys.backends, r.encrypted, r.size, r.plan)
  }

  function NewTask(piece: Bytes, recipe: Option<Recipe>): Task {
    Task(piece, recipe, if recipe.Some? then seq(|recipe.value.plan|, _ => []) else [])
  }

  /** Every planned blob is uploaded. */
  ghost predicate Uploads(t: Task) {
    t.recipe.Some? && AllUploaded(t.recipe.value.plan, t.done)
  }

  /** Backend b still has a planned blob to upload. */
  predicate HasNext(t: Task, b: nat) {
    && t.recipe.Some? && |t.done| == |t.recipe.value.plan| && b < |t.done|
    && |t.done[b]| < |t.recipe.value.plan[b]|
  }

  function NextRaw(t: Task, b: nat): RawShard
    requires HasNext(t, b)
  {
    t.recipe.value.plan[b][|t.done[b]|]
  }

  function NextShard(job: Job, t: Task, b: nat, location: nat): Shard
    requires HasNext(t, b) && b < |job.sys.backends|
  {
    Shard(NextRaw(t, b).first, NextRaw(t, b).last, job.sys.backends[b], location)
  }

  function Advance(t: Task, b: nat, x: Shard): Task
    requires b < |t.done|
  {
    t.(done := Extend(t.done, b, x))
  }

  function Monus(a: nat, b: nat): nat {
    if a >= b then a - b else 0
  }

  /** The chunk `processChunk` returns when all uploads are done. */
  function MadeChunk(job: Job, t: Task, id: nat): Chunk
    requires t.recipe.Some? && t.recipe.value.size > 0
  {
    var r, shards := t.recipe.value, Flatten(t.done);
    var d := |Segments(r.encrypted, r.size)|;
    Chunk(id, |r.encrypted|, r.size, d, Monus(MaxLast(shards) + 1, d), job.encryption, r.key, shards)
  }

  // ---------------------------------------------------------------------
  // Steps
  // ---------------------------------------------------------------------

  /** The loop continues, or is left, depending on how the read ended. */
  function AfterRead(end: ReadEnd): Phase {
    match end
    case Full => Checking
    case EndOfInput => Waiting(AtEnd)
    case Fault => Waiting(ByFault)
  }

  function Consume(r: Reader, buf: Bytes): Reader {
    Reader(r.pieces + [buf], r.total + |buf|, r.digest + buf)
  }

  function Store(d: Disk, i: nat, a: Address, data: Bytes): Disk {
    Disk(d.blobs[a := data], d.used + {a}, d.owned[i := Owned(d, i) + {a}])
  }

  ghost predicate CanReadBuffer(job: Job, r: Reader, n: nat, end: ReadEnd) {
    && n <= job.chunkSize && r.total + n <= |job.input|
    && (end.Full? <==> n == job.chunkSize)
    && (end.EndOfInput? ==> r.total + n == |job.input|)
  }

  ghost predicate CanSpawn(job: Job, s: State, recipe: Option<Recipe>) {
    && s.phase.Spawning? && s.reader.pieces != [] && |s.work.active| < Limit(job)
    && (recipe.Some? ==> Follows(job, s.reader.pieces[|s.reader.pieces| - 1], recipe.value))
  }

  ghost predicate CanPut(job: Job, s: State, i: nat, b: nat, location: nat) {
    && i in s.work.active && HasNext(s.work.active[i], b) && b < |job.sys.backends|
    && Address(job.sys.backends[b], location) !in s.disk.used
  }

  ghost predicate Enabled(job: Job, s: State, step: Step) {
    match step
    case Check => s.phase.Checking?
    case ReadBuffer(n, end) => s.phase.Reading? && CanReadBuffer(job, s.reader, n, end)
    case Spawn(recipe) => CanSpawn(job, s, recipe)
    case Put(i, b, location) => CanPut(job, s, i, b, location)
    case Finish(i, _) => i in s.work.active && Uploads(s.work.active[i]) && s.work.active[i].recipe.value.size > 0
    case Abort(i) => i in s.work.active && !Uploads(s.work.active[i])
    case Join => s.phase.Waiting? && s.work.active == map[]
    case Pick(i) => s.phase.Cleaning? && s.phase.queue == [] && i in s.phase.todo && i in s.work.completed
    case Delete => s.phase.Cleaning? && s.phase.queue != [] && AddressOf(s.phase.queue[0]) in s.disk.blobs
    case DeleteFails => s.phase.Cleaning? && s.phase.queue != []
    case Finished => s.phase.Cleaning? && s.phase.queue == [] && s.phase.todo == {}
    case Others(blobs, used) => s.disk.used <= used && blobs.Keys <= used && Agree(s.disk.blobs, blobs, Own(s.disk))
  }

  ghost function AfterPut(job: Job, s: State, i: nat, b: nat, location: nat): State
    requires CanPut(job, s, i, b, location)
  {
    var t := s.work.active[i];
    var x := NextShard(job, t, b, location);
    s.(work := s.work.(active := s.work.active[i := Advance(t, b, x)]),
       disk := Store(s.disk, i, AddressOf(x), NextRaw(t, b).data))
  }

  ghost function Apply(job: Job, s: State, step: Step): State
    requires Enabled(job, s, step)
  {
    match step
    case Check => s.(phase := if s.work.failed == map[] then Reading else Waiting(ByCancel))
    case ReadBuffer(n, end) =>
      if n == 0 then s.(phase := AfterRead(end))
      else s.(phase := Spawning(end), reader := Consume(s.reader, job.input[s.reader.total..s.reader.total + n]))
    case Spawn(recipe) =>
      var k := |s.reader.pieces| - 1;
      s.(phase := AfterRead(s.phase.end),
         work := s.work.(active := s.work.active[k := NewTask(s.reader.pieces[k], recipe)]))
    case Put(i, b, location) => AfterPut(job, s, i, b, location)
    case Finish(i, id) =>
      s.(work := Work(s.work.active - {i}, s.work.completed[i := MadeChunk(job, s.work.active[i], id)], s.work.failed))
    case Abort(i) =>
      s.(work := Work(s.work.active - {i}, s.work.completed, s.work.failed[i := s.work.active[i]]))
    case Join =>
      var fails := s.work.failed != map[] || s.phase.exit.ByFault?;
      s.(phase := if fails then Cleaning(s.work.completed.Keys, []) else Succeeded)
    case Pick(i) => s.(phase := Cleaning(s.phase.todo - {i}, s.work.completed[i].shards))
    case Delete =>
      s.(disk := s.disk.(blobs := s.disk.blobs - {AddressOf(s.phase.queue[0])}),
         phase := Cleaning(s.phase.todo, s.phase.queue[1..]))
    case DeleteFails => s.(phase := Cleaning(s.phase.todo, []), deleteFailed := true)
    case Finished => s.(phase := Failed)
    case Others(blobs, used) => s.(disk := s.disk.(blobs := blobs, used := used))
  }

  /** A run: steps taken one after the other from `s`. */
  ghost predicate Legal(job: Job, s: State, steps: seq<Step>)
    decreases |steps|
  {
    steps == [] || (Enabled(job, s, steps[0]) && Legal(job, Apply(job, s, steps[0]), steps[1..]))
  }

  ghost function Final(job: Job, s: State, steps: seq<Step>): State
    requires Legal(job, s, steps)
    decreases |steps|
  {
    if steps == [] then s else Final(job, Apply(job, s, steps[0]), steps[1..])
  }

  // ---------------------------------------------------------------------
  // Invariants
  // ---------------------------------------------------------------------

  ghost predicate AllFull(job: Job, pieces: seq<Bytes>) {
    forall i :: 0 <= i < |pieces| ==> |pieces[i]| == job.chunkSize
  }

  /** The chunk holds its piece. */
  ghost predicate Produced(job: Job, d: Disk, c: Chunk, piece: Bytes) {
    && WellFormed(c) && c.encryption == job.encryption
    && Refs(c) <= d.blobs.Keys && Holds(job.sys, d.blobs, c, job.comp.kind, piece)
  }

  /** The reader has consumed a prefix of the input, in whole buffers but for the last. */
  ghost predicate ReaderInv(job: Job, r: Reader) {
    && r.total <= |job.input| && r.digest == job.input[..r.total] && Flatten(r.pieces) == r.digest
    && (forall i :: 0 <= i < |r.pieces| ==> 0 < |r.pieces[i]|)
    && (r.pieces != [] ==> AllFull(job, r.pieces[..|r.pieces| - 1]))
    && (r.pieces != [] ==> |r.pieces[|r.pieces| - 1]| <= job.chunkSize)
  }

  /** What the current phase implies. */
  ghost predicate PhaseInv(job: Job, s: State) {
    match s.phase
    case Checking => AllFull(job, s.reader.pieces)
    case Reading => AllFull(job, s.reader.pieces)
    case Spawning(end) =>
      && s.reader.pieces != []
      && (end.Full? ==> AllFull(job, s.reader.pieces))
      && (end.EndOfInput? ==> s.reader.total == |job.input|)
    case Waiting(exit) =>
      && (exit.AtEnd? ==> s.reader.total == |job.input|)
      && (exit.ByCancel? ==> s.work.failed != map[])
    case Succeeded => s.reader.total == |job.input| && s.work.failed == map[] && s.work.active == map[]
    case Cleaning(_, _) => s.work.active == map[]
    case Failed => s.work.active == map[]
  }

  predicate Known(w: Work, i: nat) {
    i in w.active || i in w.completed || i in w.failed
  }

  /** A worker has the buffer of its ordinal, and is in one place only. */
  predicate ActiveOk(pieces: seq<Bytes>, w: Work, i: nat)
    requires i in w.active
  {
    i < |pieces| && w.active[i].piece == pieces[i] && i !in w.completed && i !in w.failed
  }

  /** A worker that has ended is completed or failed, not both. */
  predicate EndedOk(pieces: seq<Bytes>, w: Work, i: nat) {
    i < |pieces| && (i !in w.completed || i !in w.failed) && (i in w.failed ==> w.failed[i].piece == pieces[i])
  }

  /** Each ordinal read so far is in work, completed or failed; only one may still wait for a worker. */
  ghost predicate WorkInv(job: Job, pieces: seq<Bytes>, w: Work, pending: bool) {
    && |w.active.Keys| <= Limit(job)
    && (forall i {:trigger ActiveOk(pieces, w, i)} :: i in w.active ==> ActiveOk(pieces, w, i))
    && (forall i {:trigger EndedOk(pieces, w, i)} :: i in w.completed || i in w.failed ==> EndedOk(pieces, w, i))
    && (forall i: nat {:trigger Known(w, i)} :: i < |pieces| && !(pending && i == |pieces| - 1) ==> Known(w, i))
    && (pending && pieces != [] ==> !Known(w, |pieces| - 1))
  }

  /** Addresses from before the call are not used by it, and no two workers use the same. */
  ghost predicate DiskInv(job: Job, w: Work, d: Disk) {
    && d.blobs.Keys <= d.used && job.used <= d.used
    && (forall i :: i in d.owned ==> d.owned[i] <= d.used && d.owned[i] !! job.used)
    && (forall i, j :: i in d.owned && j in d.owned && i != j ==> d.owned[i] !! d.owned[j])
    && (forall i {:trigger Known(w, i)} :: i in d.owned ==> Known(w, i))
  }

  /** What a worker has stored so far is the beginning of its plan. */
  ghost predicate TaskOk(job: Job, d: Disk, i: nat, t: Task) {
    match t.recipe
    case None => Owned(d, i) == {}
    case Some(r) =>
      && Follows(job, t.piece, r) && Progress(r.plan, job.sys.backends, t.done, d.blobs, 0)
      && Owned(d, i) == Addresses(Flatten(t.done)) && |Owned(d, i)| == |Flatten(t.done)|
  }

  /** Workers in flight and failed ones are as far as their uploads say, and failed ones did not get to the end. */
  ghost predicate TasksInv(job: Job, w: Work, d: Disk) {
    && (forall i {:trigger TaskOk(job, d, i, w.active[i])} :: i in w.active ==> TaskOk(job, d, i, w.active[i]))
    && (forall i {:trigger TaskOk(job, d, i, w.failed[i])} :: i in w.failed ==> TaskOk(job, d, i, w.failed[i]))
    && (forall i {:trigger Uploads(w.failed[i])} :: i in w.failed ==> !Uploads(w.failed[i]))
  }

  /** The chunk is on exactly its worker's addresses, each used once. */
  ghost predicate ChunkOk(d: Disk, i: nat, c: Chunk) {
    WellFormed(c) && Refs(c) == Owned(d, i) && |Refs(c)| == |c.shards|
  }

  /** Completed chunks are well formed, on exactly their worker's addresses, and until cleanup intact. */
  ghost predicate ChunkInv(job: Job, pieces: seq<Bytes>, w: Work, d: Disk, intact: bool) {
    && (forall i :: i in w.completed ==> ChunkOk(d, i, w.completed[i]))
    && (intact ==> forall i {:trigger Produced(job, d, w.completed[i], pieces[i])} ::
          i in w.completed && i < |pieces| ==> Produced(job, d, w.completed[i], pieces[i]))
  }

  /** Cleanup so far: what is neither waiting nor queued is gone, unless a delete failed. */
  ghost predicate CleanInv(phase: Phase, completed: map<nat, Chunk>, blobs: Blobs, deleteFailed: bool) {
    match phase
    case Cleaning(todo, queue) =>
      && todo <= completed.Keys
      && (queue != [] ==> exists i :: i in completed && Within(queue, completed[i].shards))
      && (!deleteFailed ==> forall i {:trigger GoneBut(completed[i].shards, queue, blobs)} ::
            i in completed && i !in todo ==> GoneBut(completed[i].shards, queue, blobs))
    case Failed =>
      !deleteFailed ==> forall i {:trigger GoneBut(completed[i].shards, [], blobs)} ::
        i in completed ==> GoneBut(completed[i].shards, [], blobs)
    case _ => !deleteFailed
  }

  ghost predicate Within(a: seq<Shard>, b: seq<Shard>) {
    forall x :: x in a ==> x in b
  }

  ghost predicate GoneBut(shards: seq<Shard>, queue: seq<Shard>, blobs: Blobs) {
    forall x :: x in shards ==> x in queue || AddressOf(x) !in blobs
  }

  predicate Intact(phase: Phase) {
    !phase.Cleaning? && !phase.Failed?
  }

  ghost predicate Inv(job: Job, s: State) {
    && Ready(job) && ReaderInv(job, s.reader) && PhaseInv(job, s)
    && WorkInv(job, s.reader.pieces, s.work, s.phase.Spawning?)
    && DiskInv(job, s.work, s.disk) && TasksInv(job, s.work, s.disk)
    && ChunkInv(job, s.reader.pieces, s.work, s.disk, Intact(s.phase))
    && CleanInv(s.phase, s.work.completed, s.disk.blobs, s.deleteFailed)
  }

  // ---------------------------------------------------------------------
  // Reading and starting workers
  // ---------------------------------------------------------------------

  lemma ConsumeReads(job: Job, r: Reader, n: nat, end: ReadEnd)
    requires ReaderInv(job, r) && AllFull(job, r.pieces) && n > 0 && CanReadBuffer(job, r, n, end)
    ensures var next := Consume(r, job.input[r.total..r.total + n]);
            && ReaderInv(job, next) && next.pieces != [] && (end.Full? ==> AllFull(job, next.pieces))
            && (end.EndOfInput? ==> next.total == |job.input|)
  {
    var buf := job.input[r.total..r.total + n];
    FlattenSnoc(r.pieces, buf);
    assert job.input[..r.total] + buf == job.input[..r.total + n];
    assert (r.pieces + [buf])[..|r.pieces|] == r.pieces;
  }

  /** A buffer just read waits for a worker. */
  lemma ConsumeKeeps(job: Job, pieces: seq<Bytes>, buf: Bytes, w: Work, d: Disk)
    requires WorkInv(job, pieces, w, false) && ChunkInv(job, pieces, w, d, true)
    ensures WorkInv(job, pieces + [buf], w, true) && ChunkInv(job, pieces + [buf], w, d, true)
  {
    var more := pieces + [buf];
    forall i | i in w.active
      ensures ActiveOk(more, w, i)
    {
      assert ActiveOk(pieces, w, i);
    }
    forall i | i in w.completed || i in w.failed
      ensures EndedOk(more, w, i)
    {
      assert EndedOk(pieces, w, i);
    }
    forall i | i in w.completed && i < |more|
      ensures Produced(job, d, w.completed[i], more[i])
    {
      assert EndedOk(pieces, w, i);
      assert Produced(job, d, w.completed[i], pieces[i]);
    }
    assert Known(w, |pieces|) && |pieces| in w.active ==> ActiveOk(pieces, w, |pieces|);
    assert Known(w, |pieces|) && |pieces| !in w.active ==> EndedOk(pieces, w, |pieces|);
  }

  lemma OneMore(active: map<nat, Task>, k: nat, t: Task)
    requires k !in active
    ensures |active[k := t].Keys| == |active| + 1
  {
    assert active[k := t].Keys == active.Keys + {k};
  }

  lemma SpawnKeeps(job: Job, pieces: seq<Bytes>, w: Work, recipe: Option<Recipe>)
    requires WorkInv(job, pieces, w, true) && pieces != [] && |w.active| < Limit(job)
    ensures var k := |pieces| - 1;
            var more := w.(active := w.active[k := NewTask(pieces[k], recipe)]);
            !Known(w, k) && WorkInv(job, pieces, more, false)
  {
    var k := |pieces| - 1;
    var more := w.(active := w.active[k := NewTask(pieces[k], recipe)]);
    OneMore(w.active, k, NewTask(pieces[k], recipe));
    assert forall i: nat {:trigger Known(more, i)} :: Known(more, i) <==> i == k || Known(w, i);
    forall i | i in more.active
      ensures ActiveOk(pieces, more, i)
    {
      assert i != k ==> ActiveOk(pieces, w, i);
    }
    EndedFrame(pieces, w, more);
  }

  lemma EndedFrame(pieces: seq<Bytes>, w: Work, v: Work)
    requires v.completed.Keys == w.completed.Keys && v.failed == w.failed
    requires forall i {:trigger EndedOk(pieces, w, i)} :: i in w.completed || i in w.failed ==> EndedOk(pieces, w, i)
    ensures forall i {:trigger EndedOk(pieces, v, i)} :: i in v.completed || i in v.failed ==> EndedOk(pieces, v, i)
  {
    forall i | i in v.completed || i in v.failed
      ensures EndedOk(pieces, v, i)
    {
      assert EndedOk(pieces, w, i);
    }
  }

  lemma FreshTaskOk(job: Job, d: Disk, k: nat, piece: Bytes, recipe: Option<Recipe>)
    requires Owned(d, k) == {} && (recipe.Some? ==> Follows(job, piece, recipe.value))
    ensures TaskOk(job, d, k, NewTask(piece, recipe))
  {
    if recipe.Some? {
      NothingYet(|recipe.value.plan|);
    }
  }

  lemma {:induction false} NothingYet(n: nat)
    ensures Flatten<Shard>(seq(n, _ => [])) == []
  {
    if n > 0 {
      var none: seq<seq<Shard>> := seq(n, _ => []);
      assert none[1..] == seq(n - 1, _ => []);
      NothingYet(n - 1);
    }
  }

  lemma SpawnTasks(job: Job, w: Work, d: Disk, k: nat, t: Task)
    requires DiskInv(job, w, d) && TasksInv(job, w, d) && !Known(w, k) && TaskOk(job, d, k, t)
    ensures var more := w.(active := w.active[k := t]); DiskInv(job, more, d) && TasksInv(job, more, d)
  {
    var more := w.(active := w.active[k := t]);
    assert forall i: nat {:trigger Known(more, i)} :: Known(more, i) <==> i == k || Known(w, i);
    forall i | i in more.active
      ensures TaskOk(job, d, i, more.active[i])
    {
      assert i != k ==> TaskOk(job, d, i, w.active[i]);
    }
  }

  lemma NotOwnedYet(job: Job, w: Work, d: Disk, k: nat)
    requires DiskInv(job, w, d) && !Known(w, k)
    ensures Owned(d, k) == {}
  {
  }

  // ---------------------------------------------------------------------
  // Workers' steps
  // ---------------------------------------------------------------------

  lemma OneLess(active: map<nat, Task>, i: nat)
    requires i in active
    ensures |(active - {i}).Keys| == |active| - 1
  {
    assert (active - {i}).Keys == active.Keys - {i};
  }

  /** A worker has left, and is accounted for as completed or failed. */
  ghost predicate Left(w: Work, less: Work, i: nat) {
    && i in w.active && less.active == w.active - {i}
    && (|| (less.completed.Keys == w.completed.Keys + {i} && less.failed == w.failed)
        || (less.completed.Keys == w.completed.Keys && less.failed == w.failed[i := w.active[i]]))
  }

  lemma LeftKnown(w: Work, less: Work, i: nat, x: nat)
    requires Left(w, less, i)
    ensures Known(less, x) <==> Known(w, x)
  {
  }

  lemma LeaveDisk(job: Job, w: Work, d: Disk, i: nat, less: Work)
    requires DiskInv(job, w, d) && Left(w, less, i)
    ensures DiskInv(job, less, d)
  {
    forall x | x in d.owned
      ensures Known(less, x)
    {
      LeftKnown(w, less, i, x);
    }
  }

  lemma LeaveWork(job: Job, pieces: seq<Bytes>, w: Work, pending: bool, i: nat, less: Work)
    requires WorkInv(job, pieces, w, pending) && Left(w, less, i)
    ensures WorkInv(job, pieces, less, pending)
  {
    OneLess(w.active, i);
    assert ActiveOk(pieces, w, i);
    forall x: nat
      ensures Known(less, x) <==> Known(w, x)
    {
      LeftKnown(w, less, i, x);
    }
    forall x | x in less.active
      ensures ActiveOk(pieces, less, x)
    {
      assert ActiveOk(pieces, w, x);
    }
    forall x | x in less.completed || x in less.failed
      ensures EndedOk(pieces, less, x)
    {
      assert x != i ==> EndedOk(pieces, w, x);
    }
  }

  lemma AbortTasks(job: Job, w: Work, d: Disk, i: nat)
    requires TasksInv(job, w, d) && i in w.active && !Uploads(w.active[i])
    ensures TasksInv(job, Work(w.active - {i}, w.completed, w.failed[i := w.active[i]]), d)
  {
    var less := Work(w.active - {i}, w.completed, w.failed[i := w.active[i]]);
    forall x | x in less.active
      ensures TaskOk(job, d, x, less.active[x])
    {
      assert TaskOk(job, d, x, w.active[x]);
    }
    forall x | x in less.failed
      ensures TaskOk(job, d, x, less.failed[x]) && !Uploads(less.failed[x])
    {
      assert if x == i then TaskOk(job, d, i, w.active[i]) else TaskOk(job, d, x, w.failed[x]) && !Uploads(w.failed[x]);
    }
  }

  lemma FinishTasks(job: Job, w: Work, d: Disk, i: nat, c: Chunk)
    requires TasksInv(job, w, d) && i in w.active
    ensures TasksInv(job, Work(w.active - {i}, w.completed[i := c], w.failed), d)
  {
    var less := Work(w.active - {i}, w.completed[i := c], w.failed);
    forall x | x in less.active
      ensures TaskOk(job, d, x, less.active[x])
    {
      assert TaskOk(job, d, x, w.active[x]);
    }
    forall x | x in less.failed
      ensures TaskOk(job, d, x, less.failed[x]) && !Uploads(less.failed[x])
    {
      assert TaskOk(job, d, x, w.failed[x]) && !Uploads(w.failed[x]);
    }
  }

  /** A worker that has uploaded all it planned has made a chunk out of its buffer. */
  lemma MadeIsPacked(job: Job, d: Disk, i: nat, t: Task, id: nat)
    requires Ready(job) && TaskOk(job, d, i, t) && Uploads(t) && t.recipe.value.size > 0
    ensures Packed(job.sys, d.blobs, t.piece, job.comp, job.encryption, MadeChunk(job, t, id))
    ensures Refs(MadeChunk(job, t, id)) == Owned(d, i)
    ensures |Refs(MadeChunk(job, t, id))| == |MadeChunk(job, t, id).shards|
  {
    var r := t.recipe.value;
    var out := Sharded(Flatten(t.done), |Segments(r.encrypted, r.size)|, r.size);
    FinishedEncodes(job.sys.code, job.sys.tolerance, job.limits, job.sys.backends, r.encrypted, r.size, r.plan, t.done,
                    d.blobs);
    ParityIsLeft(job.sys, d.blobs, r.encrypted, out);
    assert PackedBy(job.sys, d.blobs, t.piece, job.comp, job.encryption, MadeChunk(job, t, id),
                    Packing(r.compressed, r.encrypted, out));
  }

  lemma FinishProduces(job: Job, pieces: seq<Bytes>, w: Work, d: Disk, intact: bool, i: nat, id: nat)
    requires Ready(job) && ChunkInv(job, pieces, w, d, intact) && i in w.active && ActiveOk(pieces, w, i)
    requires TaskOk(job, d, i, w.active[i]) && Uploads(w.active[i]) && w.active[i].recipe.value.size > 0
    ensures var less := Work(w.active - {i}, w.completed[i := MadeChunk(job, w.active[i], id)], w.failed);
            ChunkInv(job, pieces, less, d, intact)
  {
    var c := MadeChunk(job, w.active[i], id);
    var less := Work(w.active - {i}, w.completed[i := c], w.failed);
    MadeIsPacked(job, d, i, w.active[i], id);
    PackedHolds(job.sys, d.blobs, pieces[i], job.comp, job.encryption, c);
    PackedIsStored(job.sys, d.blobs, pieces[i], job.comp, job.encryption, c);
    forall x | intact && x in less.completed && x < |pieces|
      ensures Produced(job, d, less.completed[x], pieces[x])
    {
      assert x != i ==> Produced(job, d, w.completed[x], pieces[x]);
    }
  }

  // ---------------------------------------------------------------------
  // Uploads, deletes, and others
  // ---------------------------------------------------------------------

  lemma OwnedIsOwn(d: Disk, i: nat)
    ensures Owned(d, i) <= Own(d)
  {
  }

  /** What a worker has stored, after the disk changed elsewhere. */
  lemma TaskFrame(job: Job, d: Disk, e: Disk, i: nat, t: Task)
    requires TaskOk(job, d, i, t) && Owned(e, i) == Owned(d, i) && Agree(d.blobs, e.blobs, Owned(d, i))
    ensures TaskOk(job, e, i, t)
  {
    if t.recipe.Some? {
      ProgressFrame(t.recipe.value.plan, job.sys.backends, t.done, d.blobs, e.blobs);
    }
  }

  lemma ProducedFrame(job: Job, d: Disk, e: Disk, c: Chunk, piece: Bytes)
    requires Produced(job, d, c, piece) && Agree(d.blobs, e.blobs, Refs(c))
    ensures Produced(job, e, c, piece)
  {
    HoldsFrame(job.sys, d.blobs, e.blobs, c, job.comp.kind, piece);
  }

  /** The owners in `same` own the same, and find their blobs unchanged. */
  ghost predicate SameFor(d: Disk, e: Disk, i: nat) {
    Owned(e, i) == Owned(d, i) && Agree(d.blobs, e.blobs, Owned(d, i))
  }

  lemma TasksFrame(job: Job, w: Work, d: Disk, e: Disk)
    requires TasksInv(job, w, d)
    requires forall i {:trigger SameFor(d, e, i)} :: i in w.active || i in w.failed ==> SameFor(d, e, i)
    ensures TasksInv(job, w, e)
  {
    forall i | i in w.active
      ensures TaskOk(job, e, i, w.active[i])
    {
      assert SameFor(d, e, i);
      TaskFrame(job, d, e, i, w.active[i]);
    }
    forall i | i in w.failed
      ensures TaskOk(job, e, i, w.failed[i]) && !Uploads(w.failed[i])
    {
      assert SameFor(d, e, i) && !Uploads(w.failed[i]);
      TaskFrame(job, d, e, i, w.failed[i]);
    }
  }

  lemma ChunksFrame(job: Job, pieces: seq<Bytes>, w: Work, d: Disk, e: Disk, intact: bool)
    requires ChunkInv(job, pieces, w, d, intact)
    requires forall i {:trigger SameFor(d, e, i)} :: i in w.completed ==> SameFor(d, e, i)
    ensures ChunkInv(job, pieces, w, e, intact)
  {
    forall i | i in w.completed
      ensures ChunkOk(e, i, w.completed[i])
      ensures intact && i < |pieces| ==> Produced(job, e, w.completed[i], pieces[i])
    {
      assert SameFor(d, e, i);
      if intact && i < |pieces| {
        assert Produced(job, d, w.completed[i], pieces[i]);
        ProducedFrame(job, d, e, w.completed[i], pieces[i]);
      }
    }
  }

  lemma StoreDisk(job: Job, w: Work, d: Disk, i: nat, a: Address, data: Bytes)
    requires DiskInv(job, w, d) && a !in d.used && Known(w, i)
    ensures DiskInv(job, w, Store(d, i, a, data))
    ensures forall x {:trigger SameFor(d, Store(d, i, a, data), x)} :: x != i ==> SameFor(d, Store(d, i, a, data), x)
  {
  }

  /** The worker's own progress. */
  lemma StoreTask(job: Job, w: Work, d: Disk, i: nat, t: Task, b: nat, location: nat)
    requires DiskInv(job, w, d) && TaskOk(job, d, i, t) && HasNext(t, b) && b < |job.sys.backends|
    requires Address(job.sys.backends[b], location) !in d.used
    ensures var x := NextShard(job, t, b, location);
            TaskOk(job, Store(d, i, AddressOf(x), NextRaw(t, b).data), i, Advance(t, b, x))
  {
    var x, r := NextShard(job, t, b, location), t.recipe.value;
    var e := Store(d, i, AddressOf(x), NextRaw(t, b).data);
    assert Keeps(d.blobs, e.blobs);
    ExtendProgress(r.plan, job.sys.backends, t.done, d.blobs, e.blobs, b, x);
    ExtendAddresses(t.done, b, x);
    ExtendLength(t.done, b, x);
  }

  lemma PutTasks(job: Job, w: Work, d: Disk, i: nat, t: Task, e: Disk)
    requires TasksInv(job, w, d) && i in w.active && i !in w.failed && TaskOk(job, e, i, t)
    requires forall x {:trigger SameFor(d, e, x)} :: x != i ==> SameFor(d, e, x)
    ensures TasksInv(job, w.(active := w.active[i := t]), e)
  {
    var next := w.(active := w.active[i := t]);
    forall x | x in next.active
      ensures TaskOk(job, e, x, next.active[x])
    {
      if x != i {
        assert SameFor(d, e, x) && TaskOk(job, d, x, w.active[x]);
        TaskFrame(job, d, e, x, w.active[x]);
      }
    }
    forall x | x in next.failed
      ensures TaskOk(job, e, x, next.failed[x]) && !Uploads(next.failed[x])
    {
      assert SameFor(d, e, x) && TaskOk(job, d, x, w.failed[x]) && !Uploads(w.failed[x]);
      TaskFrame(job, d, e, x, w.failed[x]);
    }
  }

  lemma PutWork(job: Job, pieces: seq<Bytes>, w: Work, d: Disk, pending: bool, i: nat, t: Task)
    requires WorkInv(job, pieces, w, pending) && DiskInv(job, w, d) && i in w.active && t.piece == w.active[i].piece
    ensures var next := w.(active := w.active[i := t]); WorkInv(job, pieces, next, pending) && DiskInv(job, next, d)
  {
    var next := w.(active := w.active[i := t]);
    assert next.active.Keys == w.active.Keys;
    assert forall x: nat {:trigger Known(next, x)} :: Known(next, x) <==> Known(w, x);
    forall x | x in next.active
      ensures ActiveOk(pieces, next, x)
    {
      assert ActiveOk(pieces, w, x);
    }
    EndedFrame(pieces, w, next);
  }

  /** Chunk lists do not depend on the workers in flight. */
  lemma ChunksOfCompleted(job: Job, pieces: seq<Bytes>, w: Work, v: Work, d: Disk, intact: bool)
    requires ChunkInv(job, pieces, w, d, intact) && v.completed == w.completed
    ensures ChunkInv(job, pieces, v, d, intact)
  {
    forall i | intact && i in v.completed && i < |pieces|
      ensures Produced(job, d, v.completed[i], pieces[i])
    {
      assert Produced(job, d, w.completed[i], pieces[i]);
    }
  }

  /** A step that removes one blob of a completed chunk. */
  lemma DeleteDisk(job: Job, pieces: seq<Bytes>, w: Work, d: Disk, i: nat, a: Address)
    requires DiskInv(job, w, d) && TasksInv(job, w, d) && ChunkInv(job, pieces, w, d, false)
    requires i in w.completed && i !in w.active && i !in w.failed && a in Owned(d, i)
    ensures var e := d.(blobs := d.blobs - {a});
            DiskInv(job, w, e) && TasksInv(job, w, e) && ChunkInv(job, pieces, w, e, false)
  {
    var e := d.(blobs := d.blobs - {a});
    forall x | x in w.active || x in w.failed
      ensures SameFor(d, e, x)
    {
      assert x != i;
    }
    TasksFrame(job, w, d, e);
  }

  lemma DeleteCleans(completed: map<nat, Chunk>, blobs: Blobs, todo: set<nat>, queue: seq<Shard>, deleteFailed: bool)
    requires CleanInv(Cleaning(todo, queue), completed, blobs, deleteFailed) && queue != []
    ensures CleanInv(Cleaning(todo, queue[1..]), completed, blobs - {AddressOf(queue[0])}, deleteFailed)
  {
    var x := queue[0];
    var i :| i in completed && Within(queue, completed[i].shards);
    assert Within(queue[1..], completed[i].shards);
    forall j | !deleteFailed && j in completed && j !in todo
      ensures GoneBut(completed[j].shards, queue[1..], blobs - {AddressOf(x)})
    {
      assert GoneBut(completed[j].shards, queue, blobs);
      assert forall y :: y in queue ==> y == x || y in queue[1..];
    }
  }

  lemma OthersDisk(job: Job, pieces: seq<Bytes>, w: Work, d: Disk, intact: bool, blobs: Blobs, used: set<Address>)
    requires DiskInv(job, w, d) && TasksInv(job, w, d) && ChunkInv(job, pieces, w, d, intact)
    requires d.used <= used && blobs.Keys <= used && Agree(d.blobs, blobs, Own(d))
    ensures var e := d.(blobs := blobs, used := used);
            DiskInv(job, w, e) && TasksInv(job, w, e) && ChunkInv(job, pieces, w, e, intact)
  {
    var e := d.(blobs := blobs, used := used);
    forall i
      ensures SameFor(d, e, i)
    {
      OwnedIsOwn(d, i);
    }
    TasksFrame(job, w, d, e);
    ChunksFrame(job, pieces, w, d, e, intact);
  }

  lemma OthersClean(pieces: seq<Bytes>, job: Job, phase: Phase, w: Work, d: Disk, deleteFailed: bool, blobs: Blobs)
    requires CleanInv(phase, w.completed, d.blobs, deleteFailed) && ChunkInv(job, pieces, w, d, false)
    requires Agree(d.blobs, blobs, Own(d))
    ensures CleanInv(phase, w.completed, blobs, deleteFailed)
  {
    forall i, queue | i in w.completed && GoneBut(w.completed[i].shards, queue, d.blobs)
      ensures GoneBut(w.completed[i].shards, queue, blobs)
    {
      OwnedIsOwn(d, i);
      forall x | x in w.completed[i].shards
        ensures x in queue || AddressOf(x) !in blobs
      {
        assert AddressOf(x) in Refs(w.completed[i]);
      }
    }
  }

  // ---------------------------------------------------------------------
  // Every step keeps the invariant
  // ---------------------------------------------------------------------

  lemma WorkerOk(job: Job, s: State, i: nat)
    requires Inv(job, s) && i in s.work.active
    ensures ActiveOk(s.reader.pieces, s.work, i) && TaskOk(job, s.disk, i, s.work.active[i])
  {
  }

  lemma PutWorker(job: Job, s: State, i: nat, b: nat, location: nat)
    requires Inv(job, s) && CanPut(job, s, i, b, location)
    ensures var t := AfterPut(job, s, i, b, location);
            && WorkInv(job, s.reader.pieces, t.work, s.phase.Spawning?) && DiskInv(job, t.work, t.disk)
            && TasksInv(job, t.work, t.disk)
  {
    WorkerOk(job, s, i);
    var w, d, task := s.work, s.disk, s.work.active[i];
    var x := NextShard(job, task, b, location);
    var e := Store(d, i, AddressOf(x), NextRaw(task, b).data);
    StoreDisk(job, w, d, i, AddressOf(x), NextRaw(task, b).data);
    StoreTask(job, w, d, i, task, b, location);
    PutTasks(job, w, d, i, Advance(task, b, x), e);
    PutWork(job, s.reader.pieces, w, e, s.phase.Spawning?, i, Advance(task, b, x));
  }

  lemma PutChunks(job: Job, s: State, i: nat, b: nat, location: nat)
    requires Inv(job, s) && CanPut(job, s, i, b, location)
    ensures var t := AfterPut(job, s, i, b, location); ChunkInv(job, s.reader.pieces, t.work, t.disk, Intact(s.phase))
  {
    WorkerOk(job, s, i);
    var w, d, task := s.work, s.disk, s.work.active[i];
    var x := NextShard(job, task, b, location);
    StoreDisk(job, w, d, i, AddressOf(x), NextRaw(task, b).data);
    ChunksFrame(job, s.reader.pieces, w, d, Store(d, i, AddressOf(x), NextRaw(task, b).data), Intact(s.phase));
    var t := AfterPut(job, s, i, b, location);
    ChunksOfCompleted(job, s.reader.pieces, w, t.work, t.disk, Intact(s.phase));
  }

  /** Cleanup starts when no worker is left. */
  lemma PutIsBeforeCleanup(job: Job, s: State, i: nat)
    requires PhaseInv(job, s) && i in s.work.active
    ensures Intact(s.phase) && !s.phase.Succeeded?
  {
  }

  lemma PutStepKeepsInv(job: Job, s: State, i: nat, b: nat, location: nat)
    requires Inv(job, s) && CanPut(job, s, i, b, location)
    ensures Inv(job, AfterPut(job, s, i, b, location))
  {
    PutIsBeforeCleanup(job, s, i);
    PutWorker(job, s, i, b, location);
    PutChunks(job, s, i, b, location);
  }

  lemma FinishStepKeepsInv(job: Job, s: State, step: Step)
    requires Inv(job, s) && Enabled(job, s, step) && step.Finish?
    ensures Inv(job, Apply(job, s, step))
  {
    var i := step.ordinal;
    var c := MadeChunk(job, s.work.active[i], step.id);
    var less := Work(s.work.active - {i}, s.work.completed[i := c], s.work.failed);
    PutIsBeforeCleanup(job, s, i);
    WorkerOk(job, s, i);
    LeaveWork(job, s.reader.pieces, s.work, s.phase.Spawning?, i, less);
    LeaveDisk(job, s.work, s.disk, i, less);
    FinishTasks(job, s.work, s.disk, i, c);
    FinishProduces(job, s.reader.pieces, s.work, s.disk, Intact(s.phase), i, step.id);
  }

  lemma AbortStepKeepsInv(job: Job, s: State, step: Step)
    requires Inv(job, s) && Enabled(job, s, step) && step.Abort?
    ensures Inv(job, Apply(job, s, step))
  {
    var i := step.ordinal;
    var less := Work(s.work.active - {i}, s.work.completed, s.work.failed[i := s.work.active[i]]);
    PutIsBeforeCleanup(job, s, i);
    LeaveWork(job, s.reader.pieces, s.work, s.phase.Spawning?, i, less);
    LeaveDisk(job, s.work, s.disk, i, less);
    AbortTasks(job, s.work, s.disk, i);
    ChunksOfCompleted(job, s.reader.pieces, s.work, less, s.disk, Intact(s.phase));
  }

  lemma LastReadKeepsInv(job: Job, s: State, end: ReadEnd)
    requires Inv(job, s) && Enabled(job, s, ReadBuffer(0, end))
    ensures Inv(job, Apply(job, s, ReadBuffer(0, end)))
  {
  }

  /** The reader's part of the invariant once a buffer waits. */
  ghost predicate BufferOk(job: Job, w: Work, d: Disk, end: ReadEnd, next: Reader) {
    && ReaderInv(job, next) && next.pieces != [] && (end.Full? ==> AllFull(job, next.pieces))
    && (end.EndOfInput? ==> next.total == |job.input|)
    && WorkInv(job, next.pieces, w, true) && ChunkInv(job, next.pieces, w, d, true)
  }

  lemma ConsumeOk(job: Job, r: Reader, w: Work, d: Disk, n: nat, end: ReadEnd, next: Reader)
    requires ReaderInv(job, r) && AllFull(job, r.pieces) && n > 0 && CanReadBuffer(job, r, n, end)
    requires WorkInv(job, r.pieces, w, false) && ChunkInv(job, r.pieces, w, d, true)
    requires next == Consume(r, job.input[r.total..r.total + n])
    ensures BufferOk(job, w, d, end, next)
  {
    ConsumeReads(job, r, n, end);
    ConsumeKeeps(job, r.pieces, job.input[r.total..r.total + n], w, d);
  }

  lemma BufferedInv(job: Job, s: State, end: ReadEnd, next: Reader)
    requires Inv(job, s) && s.phase.Reading? && BufferOk(job, s.work, s.disk, end, next)
    ensures Inv(job, s.(phase := Spawning(end), reader := next))
  {
  }

  lemma NextReadApplies(job: Job, s: State, n: nat, end: ReadEnd) returns (next: Reader)
    requires Enabled(job, s, ReadBuffer(n, end)) && n > 0
    ensures next == Consume(s.reader, job.input[s.reader.total..s.reader.total + n])
    ensures Apply(job, s, ReadBuffer(n, end)) == s.(phase := Spawning(end), reader := next)
  {
    next := Consume(s.reader, job.input[s.reader.total..s.reader.total + n]);
  }

  lemma NextReadKeepsInv(job: Job, s: State, n: nat, end: ReadEnd)
    requires Inv(job, s) && Enabled(job, s, ReadBuffer(n, end)) && n > 0
    ensures Inv(job, Apply(job, s, ReadBuffer(n, end)))
  {
    var next := NextReadApplies(job, s, n, end);
    ConsumeOk(job, s.reader, s.work, s.disk, n, end, next);
    BufferedInv(job, s, end, next);
  }

  function AfterSpawn(s: State, recipe: Option<Recipe>): State
    requires s.phase.Spawning? && s.reader.pieces != []
  {
    var k := |s.reader.pieces| - 1;
    s.(phase := AfterRead(s.phase.end),
       work := s.work.(active := s.work.active[k := NewTask(s.reader.pieces[k], recipe)]))
  }

  lemma SpawnWorker(job: Job, s: State, recipe: Option<Recipe>)
    requires Inv(job, s) && CanSpawn(job, s, recipe)
    ensures var t := AfterSpawn(s, recipe);
            && WorkInv(job, s.reader.pieces, t.work, false) && DiskInv(job, t.work, t.disk)
            && TasksInv(job, t.work, t.disk)
            && ChunkInv(job, s.reader.pieces, t.work, t.disk, true)
  {
    var k := |s.reader.pieces| - 1;
    SpawnKeeps(job, s.reader.pieces, s.work, recipe);
    NotOwnedYet(job, s.work, s.disk, k);
    FreshTaskOk(job, s.disk, k, s.reader.pieces[k], recipe);
    SpawnTasks(job, s.work, s.disk, k, NewTask(s.reader.pieces[k], recipe));
    ChunksOfCompleted(job, s.reader.pieces, s.work, AfterSpawn(s, recipe).work, s.disk, true);
  }

  lemma SpawnStepKeepsInv(job: Job, s: State, recipe: Option<Recipe>)
    requires Inv(job, s) && CanSpawn(job, s, recipe)
    ensures Inv(job, AfterSpawn(s, recipe))
  {
    SpawnWorker(job, s, recipe);
  }

  lemma LoopStepKeepsInv(job: Job, s: State, step: Step)
    requires Inv(job, s) && Enabled(job, s, step) && (step.Check? || step.Join?)
    ensures Inv(job, Apply(job, s, step))
  {
  }

  lemma DeleteStepKeepsInv(job: Job, s: State)
    requires Inv(job, s) && Enabled(job, s, Delete)
    ensures Inv(job, Apply(job, s, Delete))
  {
    var x := s.phase.queue[0];
    var i :| i in s.work.completed && Within(s.phase.queue, s.work.completed[i].shards);
    assert x in s.work.completed[i].shards;
    assert AddressOf(x) in Refs(s.work.completed[i]);
    assert EndedOk(s.reader.pieces, s.work, i);
    DeleteDisk(job, s.reader.pieces, s.work, s.disk, i, AddressOf(x));
    DeleteCleans(s.work.completed, s.disk.blobs, s.phase.todo, s.phase.queue, s.deleteFailed);
  }

  lemma PickStepKeepsInv(job: Job, s: State, i: nat)
    requires Inv(job, s) && Enabled(job, s, Pick(i))
    ensures Inv(job, Apply(job, s, Pick(i)))
  {
    PickCleans(s.work.completed, s.disk.blobs, s.phase.todo, i, s.deleteFailed);
  }

  lemma PickCleans(completed: map<nat, Chunk>, blobs: Blobs, todo: set<nat>, i: nat, deleteFailed: bool)
    requires CleanInv(Cleaning(todo, []), completed, blobs, deleteFailed) && i in todo && i in completed
    ensures CleanInv(Cleaning(todo - {i}, completed[i].shards), completed, blobs, deleteFailed)
  {
    var queue := completed[i].shards;
    assert Within(queue, queue);
    forall j | !deleteFailed && j in completed && j !in todo - {i}
      ensures GoneBut(completed[j].shards, queue, blobs)
    {
      assert j != i ==> GoneBut(completed[j].shards, [], blobs);
    }
  }

  lemma CleanupStepKeepsInv(job: Job, s: State, step: Step)
    requires Inv(job, s) && Enabled(job, s, step) && (step.DeleteFails? || step.Finished?)
    ensures Inv(job, Apply(job, s, step))
  {
  }

  lemma OthersStepKeepsInv(job: Job, s: State, step: Step)
    requires Inv(job, s) && Enabled(job, s, step) && step.Others?
    ensures Inv(job, Apply(job, s, step))
  {
    OthersDisk(job, s.reader.pieces, s.work, s.disk, Intact(s.phase), step.blobs, step.used);
    OthersClean(s.reader.pieces, job, s.phase, s.work, s.disk, s.deleteFailed, step.blobs);
  }

  lemma WorkerStepKeepsInv(job: Job, s: State, step: Step)
    requires Inv(job, s) && Enabled(job, s, step) && (step.Put? || step.Finish? || step.Abort? || step.Spawn?)
    ensures Inv(job, Apply(job, s, step))
  {
    match step
    case Put(i, b, location) => PutStepKeepsInv(job, s, i, b, location);
    case Finish(_, _) => FinishStepKeepsInv(job, s, step);
    case Abort(_) => AbortStepKeepsInv(job, s, step);
    case Spawn(recipe) => SpawnStepKeepsInv(job, s, recipe);
  }

  lemma StepKeepsInv(job: Job, s: State, step: Step)
    requires Inv(job, s) && Enabled(job, s, step)
    ensures Inv(job, Apply(job, s, step))
  {
    match step
    case ReadBuffer(n, end) =>
      if n == 0 {
        LastReadKeepsInv(job, s, end);
      } else {
        NextReadKeepsInv(job, s, n, end);
      }
    case Check => LoopStepKeepsInv(job, s, step);
    case Join => LoopStepKeepsInv(job, s, step);
    case Delete => DeleteStepKeepsInv(job, s);
    case Pick(i) => PickStepKeepsInv(job, s, i);
    case DeleteFails => CleanupStepKeepsInv(job, s, step);
    case Finished => CleanupStepKeepsInv(job, s, step);
    case Others(_, _) => OthersStepKeepsInv(job, s, step);
    case _ => WorkerStepKeepsInv(job, s, step);
  }

  lemma {:induction false} RunKeepsInv(job: Job, s: State, steps: seq<Step>)
    requires Inv(job, s) && Legal(job, s, steps)
    ensures Inv(job, Final(job, s, steps))
    ensures s.work.failed.Keys <= Final(job, s, steps).work.failed.Keys
    decreases |steps|
  {
    if steps != [] {
      StepKeepsInv(job, s, steps[0]);
      RunKeepsInv(job, Apply(job, s, steps[0]), steps[1..]);
    }
  }

  lemma StartsWell(job: Job, blobs: Blobs)
    requires Ready(job) && blobs.Keys <= job.used
    ensures Inv(job, Init(job, blobs))
  {
  }

  lemma Reachable(job: Job, blobs: Blobs, steps: seq<Step>)
    requires Ready(job) && blobs.Keys <= job.used && Legal(job, Init(job, blobs), steps)
    ensures Inv(job, Final(job, Init(job, blobs), steps))
  {
    StartsWell(job, blobs);
    RunKeepsInv(job, Init(job, blobs), steps);
  }
}
